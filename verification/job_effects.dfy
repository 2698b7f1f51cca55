/** What the end of a job, the link of a publish and the marking of a task leave in the tables, row by row. */
module JobEffects {
  import opened PipelineTypes
  import opened Tables
  import opened Pipeline
  import opened Invariants
  import opened RequestEffects
  import Carrying
  import PublishKeeps
  import StepKeeps
  import PostTasks
  import SiteOrders
  import SiteTasks

  // ---- deployment ----

  /** The task, the one deploy order of its site, and the site move together; nothing else changes. */
  ghost predicate DeployMoves(a: Db, b: Db, t: int, state: TaskState, status: SiteStatus) {
    0 <= t < |a.deployTasks| && a.deployTasks[t].site < |a.sites| &&
    var site := a.deployTasks[t].site;
    exists d :: 0 <= d < |a.deployOrders| && a.deployOrders[d].site == site &&
      b == a.(deployTasks := a.deployTasks[t := a.deployTasks[t].(state := state)],
              deployOrders := a.deployOrders[d := a.deployOrders[d].(state := state)],
              sites := a.sites[site := a.sites[site].(status := status)])
  }

  lemma DeployOrderOfTask(s: State, t: int) returns (d: int)
    requires Inv(s) && TaskDoing(s.db, Job(DeployJob, t))
    ensures 0 <= d < |s.db.deployOrders| && s.db.deployOrders[d].site == s.db.deployTasks[t].site < |s.db.sites|
    ensures forall i :: 0 <= i < |s.db.deployOrders| ==> (s.db.deployOrders[i].task == t <==> i == d)
  {
    var site := s.db.deployTasks[t].site;
    assert s.db.sites[site].status == Deploying;
    assert HasDeployOrder(s.db.deployOrders, site);
    d :| 0 <= d < |s.db.deployOrders| && s.db.deployOrders[d].site == site;
    assert s.db.deployOrders[d].task == t;
    forall i | 0 <= i < |s.db.deployOrders| && s.db.deployOrders[i].task == t ensures i == d {
      assert DeployOrderAgrees(s.db.sites, s.db.deployTasks, s.db.deployOrders[i]);
      assert s.db.deployOrders[i].site == site;
    }
  }

  lemma DeployEndEffect(s: State, t: int, state: TaskState, status: SiteStatus)
    requires Inv(s) && TaskDoing(s.db, Job(DeployJob, t))
    ensures DeployMoves(s.db, SiteTasks.CloseDeploy(s.db, t, state, status), t, state, status)
  {
    var d := DeployOrderOfTask(s, t);
    hide Inv;
    assert SiteTasks.CloseDeploy(s.db, t, state, status).deployOrders ==
      s.db.deployOrders[d := s.db.deployOrders[d].(state := state)];
  }

  // ---- batches ----

  /** The task ends, and with it exactly its running posts. */
  predicate BatchFinishes(a: Db, b: Db, t: int, order: int) {
    0 <= t < |a.postTasks| && |b.posts| == |a.posts| &&
    b == a.(postTasks := a.postTasks[t := a.postTasks[t].(state := Finished, publishOrder := order)], posts := b.posts) &&
    forall i :: 0 <= i < |a.posts| ==>
      b.posts[i] ==
      if a.posts[i].postTask == t && a.posts[i].submit == Doing
      then a.posts[i].(submit := Finished, publishOrder := order) else a.posts[i]
  }

  predicate BatchFails(a: Db, b: Db, t: int) {
    0 <= t < |a.postTasks| && |b.posts| == |a.posts| &&
    b == a.(postTasks := a.postTasks[t := a.postTasks[t].(state := Failed)], posts := b.posts) &&
    forall i :: 0 <= i < |a.posts| ==>
      b.posts[i] ==
      if a.posts[i].postTask == t && a.posts[i].submit == Doing
      then a.posts[i].(submit := Failed, publish := Failed) else a.posts[i]
  }

  lemma BatchEndEffect(db: Db, t: int, order: int)
    requires 0 <= t < |db.postTasks|
    ensures BatchFinishes(db, PostTasks.FinishTask(db, t, order), t, order) && BatchFails(db, PostTasks.FailTask(db, t), t)
  {
  }

  // ---- publishing ----

  /** The task, its orders, the posts that carry it, and its site move together; nothing else changes. */
  predicate PublishMoves(a: Db, b: Db, t: int, state: TaskState, status: SiteStatus) {
    0 <= t < |a.publishTasks| && a.publishTasks[t].site < |a.sites| &&
    |b.publishOrders| == |a.publishOrders| && |b.posts| == |a.posts| &&
    var site := a.publishTasks[t].site;
    b == a.(publishTasks := a.publishTasks[t := a.publishTasks[t].(state := state)],
            publishOrders := b.publishOrders, posts := b.posts,
            sites := a.sites[site := a.sites[site].(status := status)]) &&
    (forall i :: 0 <= i < |a.publishOrders| ==>
      b.publishOrders[i] ==
      if a.publishOrders[i].task == t then a.publishOrders[i].(state := state) else a.publishOrders[i]) &&
    (forall i :: 0 <= i < |a.posts| ==>
      b.posts[i] == if a.posts[i].publishTask == t then a.posts[i].(publish := state) else a.posts[i])
  }

  lemma PublishMoveEffect(db: Db, t: int, state: TaskState, status: SiteStatus)
    requires 0 <= t < |db.publishTasks| && db.publishTasks[t].site < |db.sites|
    ensures PublishMoves(db, SiteTasks.MovePublish(db, t, state, status), t, state, status)
  {
  }

  /** The task that carries the next publish of the pair: its PENDING one, or else a new one. */
  predicate NextTaskIs(a: seq<PublishTask>, site: nat, user: nat, t: int) {
    if t < |a| then 0 <= t && a[t] == PublishTask(user, site, Pending)
    else t == |a| && forall u :: 0 <= u < |a| ==> a[u] != PublishTask(user, site, Pending)
  }

  /** The unpublished orders of the pair, their unpublished posts and their post tasks carry the PENDING task
      of the pair, a new one if there was none; nothing else changes. */
  predicate LinkedOn(a: Db, b: Db, site: nat, user: nat, t: int) {
    NextTaskIs(a.publishTasks, site, user, t) &&
    |b.publishOrders| == |a.publishOrders| && |b.posts| == |a.posts| && |b.postTasks| == |a.postTasks| &&
    var owed := Carrying.Owed(a.publishOrders, site, user);
    b == a.(publishOrders := b.publishOrders, posts := b.posts, postTasks := b.postTasks,
            publishTasks := if t < |a.publishTasks| then a.publishTasks
                            else a.publishTasks + [PublishTask(user, site, Pending)]) &&
    (forall i :: 0 <= i < |a.publishOrders| ==>
      b.publishOrders[i] == if i in owed then a.publishOrders[i].(task := t) else a.publishOrders[i]) &&
    (forall i :: 0 <= i < |a.posts| ==>
      b.posts[i] ==
      if a.posts[i].publishOrder in owed && Unpublished(a.posts[i].publish)
      then a.posts[i].(publishTask := t) else a.posts[i]) &&
    (forall i :: 0 <= i < |a.postTasks| ==>
      b.postTasks[i] ==
      if a.postTasks[i].publishOrder in owed then a.postTasks[i].(publishTask := t) else a.postTasks[i])
  }

  lemma LinkEffect(db: Db, site: nat, user: nat)
    requires PublishInv(db.sites, db.publishOrders, db.publishTasks)
    requires site < |db.sites| && db.sites[site].user == user
    ensures LinkedOn(db, SiteTasks.LinkOrGenerate(db, site, user), site, user, Carrying.NextTask(db, site, user))
  {
    var t := Carrying.NextTask(db, site, user);
    var db' := SiteTasks.LinkOrGenerate(db, site, user);
    PublishKeeps.LinkedTask(db, site, user);
    Carrying.LinkedOrders(db, site, user);
    NextTaskFound(db, site, user);
    hide PublishInv, SiteTasks.LinkOrGenerate, Carrying.NextTask, OrdersOfTask;
    assert OrdersOfTask(db'.publishOrders, t) == Carrying.Owed(db.publishOrders, site, user);
  }

  lemma NextTaskFound(db: Db, site: nat, user: nat)
    requires PublishInv(db.sites, db.publishOrders, db.publishTasks)
    requires site < |db.sites| && db.sites[site].user == user
    ensures NextTaskIs(db.publishTasks, site, user, Carrying.NextTask(db, site, user))
    ensures PublishKeeps.WithPending(db.publishTasks, site, user) ==
      if Carrying.NextTask(db, site, user) < |db.publishTasks| then db.publishTasks
      else db.publishTasks + [PublishTask(user, site, Pending)]
  {
    var latest := LatestTaskOf(db.publishTasks, site, user);
    var more := db.publishTasks + [PublishTask(user, site, Pending)];
    if latest == NONE || db.publishTasks[latest].state != Pending {
      assert more[|db.publishTasks|] == PublishTask(user, site, Pending);
      assert LatestTaskOf(more, site, user) == |db.publishTasks|;
    }
  }

  // ---- the life cycle of jobs ----

  /** What an action of the job queue does to the whole state. */
  ghost predicate WorkerDoes(s: State, a: WorkerAction, s': State) {
    match a
    case AStartJob(j) => s' == s.(waiting := s.waiting - multiset{j}, active := s.active + multiset{j})
    case AReport(_, p) =>
      0 <= p < |s.db.posts| &&
      s' == s.(db := s.db.(posts := s.db.posts[p := s.db.posts[p].(submit := Failed, publish := Failed)]))
    case ACompleteDeploy(t) =>
      DeployMoves(s.db, s'.db, t, Finished, Deployed) &&
      s' == s.(db := s'.db, active := s.active - multiset{Job(DeployJob, t)}, deployed := s.deployed + {t})
    case AOrderFirstPublish(t) =>
      0 <= t < |s.db.deployTasks| &&
      (exists site: nat, o: nat :: PublishRequested(s.db, s'.db, site, s.db.deployTasks[t].user, o) &&
        site == DefaultSite(s.db.sites, s.db.deployTasks[t].user)) &&
      s' == s.(db := s'.db, deployed := s.deployed - {t})
    case ACompletePosts(t) =>
      0 <= t < |s.db.postTasks| && t in s'.closing &&
      (exists site: nat :: PublishRequested(s.db, s'.db, site, s.db.postTasks[t].user, s'.closing[t]) &&
        site == DefaultSite(s.db.sites, s.db.postTasks[t].user)) &&
      s' == s.(db := s'.db, active := s.active - multiset{Job(PostJob, t)}, closing := s.closing[t := s'.closing[t]])
    case AFinishPosts(t) =>
      t in s.closing && BatchFinishes(s.db, s'.db, t, s.closing[t]) &&
      s' == s.(db := s'.db, closing := s.closing - {t})
    case ACompletePublish(t) =>
      PublishMoves(s.db, s'.db, t, Finished, Published) &&
      s' == s.(db := s'.db, active := s.active - multiset{Job(PublishJob, t)})
    case AFailJob(j) =>
      JobFails(s.db, s'.db, j) && s' == s.(db := s'.db, active := s.active - multiset{j})
  }

  ghost predicate JobFails(a: Db, b: Db, j: Job) {
    match j.kind
    case DeployJob => DeployMoves(a, b, j.task, Failed, DeployFailed)
    case PostJob => BatchFails(a, b, j.task)
    case PublishJob => PublishMoves(a, b, j.task, Failed, PublishFailed)
  }

  lemma JobFailEffect(s: State, j: Job)
    requires Inv(s) && TaskDoing(s.db, j)
    ensures JobFails(s.db, FailTask(s.db, j), j)
  {
    match j.kind
    case DeployJob => DeployEndEffect(s, j.task, Failed, DeployFailed);
    case PostJob => BatchEndEffect(s.db, j.task, 0);
    case PublishJob => PublishSite(s, j.task); PublishMoveEffect(s.db, j.task, Failed, PublishFailed);
  }

  lemma PublishSite(s: State, t: int)
    requires Inv(s) && 0 <= t < |s.db.publishTasks|
    ensures s.db.publishTasks[t].site < |s.db.sites|
  {
  }

  lemma DeployerHasSite(s: State, t: int)
    requires Inv(s) && 0 <= t < |s.db.deployTasks|
    ensures DefaultSite(s.db.sites, s.db.deployTasks[t].user) != NONE
  {
  }

  lemma PosterHasSite(s: State, t: int)
    requires Inv(s) && 0 <= t < |s.db.postTasks|
    ensures DefaultSite(s.db.sites, s.db.postTasks[t].user) != NONE
  {
    assert PostTasksOk(s.db.sites, s.db.postTasks);
  }

  lemma OrderRequested(db: Db, user: nat)
    requires DefaultSite(db.sites, user) != NONE
    ensures var g := SiteOrders.GeneratePublishOrder(db, user);
            0 <= g.order && PublishRequested(db, g.db, DefaultSite(db.sites, user), user, g.order)
  {
    PublishRequestEffect(db, user);
    hide SiteOrders.GeneratePublishOrder;
  }

  /** In every reachable state an action of the job queue does exactly that. */
  lemma WorkerEffect(s: State, a: WorkerAction)
    requires Inv(s) && WorkerEnabled(s, a)
    ensures WorkerDoes(s, a, WorkerNext(s, a))
  {
    hide Inv, PublishRequested, DeployMoves, BatchFinishes, BatchFails, PublishMoves, JobFails, TaskDoing, FailTask,
         SiteTasks.CloseDeploy, SiteTasks.MovePublish, SiteOrders.GeneratePublishOrder, PostTasks.FinishTask;
    match a
    case AStartJob(_) =>
    case AReport(_, _) =>
    case ACompleteDeploy(t) => StepKeeps.InFlight(s, Job(DeployJob, t)); DeployEndEffect(s, t, Finished, Deployed);
    case AOrderFirstPublish(t) => DeployerHasSite(s, t); OrderRequested(s.db, s.db.deployTasks[t].user);
    case ACompletePosts(t) => PosterHasSite(s, t); OrderRequested(s.db, s.db.postTasks[t].user);
    case AFinishPosts(t) => ClosingTask(s, t); BatchEndEffect(s.db, t, s.closing[t]);
    case ACompletePublish(t) =>
      PublishTaskDoing(s, t);
      PublishMoveEffect(s.db, t, Finished, Published);
    case AFailJob(j) => StepKeeps.InFlight(s, j); JobFailEffect(s, j);
  }

  lemma ClosingTask(s: State, t: int)
    requires Inv(s) && t in s.closing
    ensures 0 <= t < |s.db.postTasks|
  {
  }

  lemma PublishTaskDoing(s: State, t: int)
    requires Inv(s) && Job(PublishJob, t) in s.active
    ensures 0 <= t < |s.db.publishTasks| && s.db.publishTasks[t].site < |s.db.sites|
  {
    StepKeeps.InFlight(s, Job(PublishJob, t));
  }
}

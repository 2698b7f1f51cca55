/** A post whose retry was lost is stuck: which steps free it, and that no run without them does. */
module Stuck {
  import opened PipelineTypes
  import opened Tables
  import opened Pipeline
  import opened Invariants
  import opened Runs
  import opened StepTables
  import Carrying
  import Hanging
  import History
  import PublishKeeps
  import StepKeeps
  import PostOrders
  import PostTasks
  import SiteOrders
  import SiteTasks

  /** The task will not run (again). */
  predicate Over(tasks: seq<PublishTask>, t: int) {
    t == NONE || (0 <= t < |tasks| && tasks[t].state in {Finished, Failed})
  }

  /** A submitted post that is publish-PENDING on a FINISHED order and carries no publish task to come. */
  predicate IsStuck(db: Db, i: int) {
    Hanging.Lost(db, i) && db.posts[i].publish == Pending && db.posts[i].submit == Finished &&
    db.posts[i].certificate != Failed && Over(db.publishTasks, db.posts[i].publishTask)
  }

  /** A report names the post, its certificate is lost, or a re-pointing puts its batch on an order that is
      not FINISHED. */
  predicate Frees(s: State, a: Action, i: int) {
    match a
    case Worker(AReport(_, p)) => p == i
    case Outside(ALoseCertificate(p)) => p == i
    case Outside(AEndRetry(r)) =>
      r.postTask != NONE && 0 <= i < |s.db.posts| && s.db.posts[i].postTask == r.postTask &&
      !(r.order < |s.db.publishOrders| && s.db.publishOrders[r.order].state == Finished)
    case _ => false
  }

  /** Nothing but the certificate changes in the row, and that does not fail. */
  predicate RowStays(p: PostOrder, q: PostOrder) {
    q == p.(certificate := q.certificate, certified := q.certified, storage := q.storage) &&
    (q.certificate == Failed ==> p.certificate == Failed)
  }

  predicate Stays(a: Db, b: Db, i: int) {
    |a.posts| <= |b.posts| && (0 <= i < |a.posts| ==> RowStays(a.posts[i], b.posts[i]))
  }

  lemma StaysStuck(a: Db, b: Db, i: int)
    requires IsStuck(a, i) && Stays(a, b, i) && History.Settles(a, b)
    ensures IsStuck(b, i)
  {
  }

  // ---- operations ----

  lemma Requested(db: Db, user: nat, site: int, i: int)
    ensures Stays(db, SiteOrders.SaveDeployOrder(db, user, site), i)
    ensures Stays(db, PostOrders.SavePost(db, user, Pending, Pending), i)
    ensures Stays(db, SiteOrders.GeneratePublishOrder(db, user).db, i)
  {
  }

  /** The post itself is refused. */
  lemma Retried(db: Db, user: nat, p: int, i: int)
    requires IsStuck(db, i)
    ensures var r := PostOrders.RetryPost(db, user, p);
            (p == i ==> r.Refused?) && (r.Retried? ==> Stays(db, r.db, i))
  {
  }

  lemma CertificateMoves(db: Db, p: int, i: int)
    requires 0 <= p < |db.posts|
    ensures Stays(db, PostOrders.BeginCertificate(db, p), i) && Stays(db, PostOrders.StoreCertificate(db, p), i)
    ensures p != i ==> Stays(db, PostOrders.LoseCertificate(db, p), i) && Stays(db, PostOrders.FailSubmit(db, p), i)
    ensures p == i ==> !IsStuck(PostOrders.LoseCertificate(db, p), i) && !IsStuck(PostOrders.FailSubmit(db, p), i)
  {
  }

  lemma Begun(db: Db, e: RetryEvent, i: int)
    ensures Stays(db, SiteOrders.BeginRetry(db, e), i)
  {
  }

  lemma RepointedIff(db: Db, r: Repoint, i: int)
    requires IsStuck(db, i)
    ensures r.postTask == NONE || db.posts[i].postTask != r.postTask ==> Stays(db, SiteOrders.EndRetry(db, r), i)
    ensures r.postTask != NONE && db.posts[i].postTask == r.postTask ==>
      (IsStuck(SiteOrders.EndRetry(db, r), i) <==>
       r.order < |db.publishOrders| && db.publishOrders[r.order].state == Finished)
  {
  }

  /** The FINISHED order is not among those that the link puts on its task. */
  lemma LinkStays(db: Db, site: nat, user: nat, i: int)
    requires IsStuck(db, i) && PublishInv(db.sites, db.publishOrders, db.publishTasks)
    requires site < |db.sites| && db.sites[site].user == user
    ensures Stays(db, SiteTasks.LinkOrGenerate(db, site, user), i)
  {
    Carrying.LinkedOrders(db, site, user);
    PublishKeeps.LinkedTask(db, site, user);
    assert db.posts[i].publishOrder !in Carrying.Owed(db.publishOrders, site, user);
    hide SiteTasks.LinkOrGenerate, PublishInv, Carrying.Owed, PublishKeeps.WithPending, OrdersOfTask;
  }

  lemma PostTaskMoves(db: Db, user: nat, t: int, order: int, i: int)
    requires IsStuck(db, i) && PostInv(db.publishOrders, db.publishTasks, db.posts, db.postTasks)
    ensures Stays(db, PostTasks.Generate(db, user), i)
    ensures 0 <= t < |db.postTasks| && db.postTasks[t].state != Finished ==> Stays(db, PostTasks.DoingTask(db, t), i)
    ensures Stays(db, PostTasks.FinishTask(db, t, order), i) && Stays(db, PostTasks.FailTask(db, t), i)
  {
    assert PostOk(db.publishOrders, db.publishTasks, db.postTasks, db.posts[i]);
  }

  lemma PublishMoves(db: Db, t: int, state: TaskState, status: SiteStatus, i: int)
    requires IsStuck(db, i) && 0 <= t < |db.publishTasks| && db.publishTasks[t].state in {Pending, Doing}
    ensures Stays(db, SiteTasks.MovePublish(db, t, state, status), i)
  {
  }

  lemma DeployMoves(db: Db, d: int, site: nat, user: nat, state: TaskState, status: SiteStatus, i: int)
    ensures 0 <= d < |db.deployOrders| ==> Stays(db, SiteTasks.StartDeploy(db, d, site, user), i)
    ensures Stays(db, SiteTasks.CloseDeploy(db, d, state, status), i)
  {
  }

  lemma FailStays(db: Db, j: Job, i: int)
    requires IsStuck(db, i) && PostInv(db.publishOrders, db.publishTasks, db.posts, db.postTasks) && TaskDoing(db, j)
    ensures Stays(db, FailTask(db, j), i)
  {
    hide IsStuck, Stays, PostInv;
    match j.kind
    case DeployJob => DeployMoves(db, j.task, 0, 0, Failed, DeployFailed, i);
    case PostJob => PostTaskMoves(db, 0, j.task, 0, i);
    case PublishJob => PublishMoves(db, j.task, Failed, PublishFailed, i);
  }

  // ---- steps ----

  lemma Parts(s: State)
    requires Inv(s)
    ensures PostInv(s.db.publishOrders, s.db.publishTasks, s.db.posts, s.db.postTasks)
    ensures PublishInv(s.db.sites, s.db.publishOrders, s.db.publishTasks)
    ensures forall e :: e in s.db.links ==> e.site < |s.db.sites| && s.db.sites[e.site].user == e.user
  {
  }

  lemma OutsideStays(s: State, a: OutsideAction, i: int)
    requires Inv(s) && IsStuck(s.db, i) && OutsideEnabled(s, a) && !a.AEndRetry? && a != ALoseCertificate(i)
    ensures Stays(s.db, OutsideNext(s, a).db, i)
  {
    hide Inv, IsStuck, PostInv, PublishInv, SiteOrders.SaveDeployOrder, SiteOrders.GeneratePublishOrder,
         SiteTasks.LinkOrGenerate, SiteOrders.BeginRetry, PostOrders.RetryPost, PostOrders.SavePost,
         PostOrders.BeginCertificate, PostOrders.StoreCertificate, PostOrders.LoseCertificate;
    Parts(s);
    match a
    case ATick =>
    case ACreateSite(_) =>
    case ASavePost(user) => Requested(s.db, user, 0, i);
    case ARequestDeploy(user, site) => Requested(s.db, user, site, i);
    case ARequestPublish(user) => Requested(s.db, user, 0, i);
    case ARetry(user, p) => Retried(s.db, user, p, i);
    case ABeginCertificate(p) => CertificateMoves(s.db, p, i);
    case AStoreCertificate(p) => CertificateMoves(s.db, p, i);
    case ALoseCertificate(p) => CertificateMoves(s.db, p, i);
    case ADeliverLink(e) =>
      var taken := s.db.(links := s.db.links - multiset{e});
      Taken(s.db, taken, i);
      LinkStays(taken, e.site, e.user, i);
    case ABeginRetry(e) => Begun(s.db, e, i);
  }

  lemma Taken(a: Db, b: Db, i: int)
    requires IsStuck(a, i) && b.posts == a.posts && b.publishOrders == a.publishOrders && b.publishTasks == a.publishTasks
    ensures IsStuck(b, i)
  {
  }

  lemma DispatcherStays(s: State, a: DispatcherAction, i: int)
    requires Inv(s) && IsStuck(s.db, i) && DispatcherEnabled(s, a)
    ensures Stays(s.db, DispatcherNext(s, a).db, i)
  {
    hide Inv, IsStuck, PostInv, PublishInv, DispatcherNext, FailTask, PostTasks.Generate, PostTasks.DoingTask,
         SiteTasks.StartDeploy, SiteTasks.LinkOrGenerate, SiteTasks.MovePublish, FirstDeploy, FirstPublish, FirstPost,
         TaskDoing;
    DispatcherDb(s, a);
    Parts(s);
    match a
    case AStartDeploy =>
      var o := s.db.deployOrders[s.phase.choice.d];
      DeployMoves(s.db, s.phase.choice.d, o.site, o.user, Failed, DeployFailed, i);
    case ASweep => PostTaskMoves(s.db, s.db.posts[s.phase.choice.p].user, 0, 0, i);
    case AMarkPosts => SweptPending(s); PostTaskMoves(s.db, 0, s.phase.postTask, 0, i);
    case ALinkForPublish =>
      StepKeeps.ChosenSite(s, s.phase.choice.o);
      var o := s.db.publishOrders[s.phase.choice.o];
      LinkStays(s.db, o.site, o.user, i);
    case AMarkPublish =>
      if DispatcherNext(s, a).db != s.db {
        PublishMoves(s.db, s.db.publishOrders[s.phase.order].task, Doing, Publishing, i);
      }
    case AAbandon => StepKeeps.InFlight(s, s.phase.job); FailStays(s.db, s.phase.job, i);
    case _ =>
  }

  lemma SweptPending(s: State)
    requires Inv(s) && s.phase.Swept?
    ensures 0 <= s.phase.postTask < |s.db.postTasks| && s.db.postTasks[s.phase.postTask].state == Pending
  {
  }

  lemma WorkerStays(s: State, a: WorkerAction, i: int)
    requires Inv(s) && IsStuck(s.db, i) && WorkerEnabled(s, a) && !(a.AReport? && a.p == i)
    ensures Stays(s.db, WorkerNext(s, a).db, i)
  {
    hide Inv, IsStuck, PostInv, PublishInv, WorkerNext, FailTask, PostTasks.FinishTask, SiteTasks.CloseDeploy,
         SiteTasks.MovePublish, SiteOrders.GeneratePublishOrder, PostOrders.FailSubmit;
    WorkerDb(s, a);
    Parts(s);
    match a
    case AStartJob(_) =>
    case AReport(_, p) => CertificateMoves(s.db, p, i);
    case ACompleteDeploy(t) => DeployMoves(s.db, t, 0, 0, Finished, Deployed, i);
    case AOrderFirstPublish(t) => Requested(s.db, s.db.deployTasks[t].user, 0, i);
    case ACompletePosts(t) => Requested(s.db, s.db.postTasks[t].user, 0, i);
    case AFinishPosts(t) => PostTaskMoves(s.db, 0, t, s.closing[t], i);
    case ACompletePublish(t) => StepKeeps.InFlight(s, Job(PublishJob, t)); PublishMoves(s.db, t, Finished, Published, i);
    case AFailJob(j) => StepKeeps.InFlight(s, j); FailStays(s.db, j, i);
  }

  lemma StepStays(s: State, a: Action, i: int)
    requires Inv(s) && IsStuck(s.db, i) && Enabled(s, a) && !Frees(s, a, i)
    requires !(a.Outside? && a.outside.AEndRetry?)
    ensures Stays(s.db, Next(s, a).db, i)
  {
    hide Inv, IsStuck, Stays, OutsideEnabled, OutsideNext, DispatcherEnabled, DispatcherNext, WorkerEnabled, WorkerNext;
    match a
    case Outside(o) => OutsideStays(s, o, i);
    case Dispatcher(d) => DispatcherStays(s, d, i);
    case Worker(w) => WorkerStays(s, w, i);
  }

  lemma FreeingStep(s: State, a: Action, i: int)
    requires IsStuck(s.db, i) && Enabled(s, a) && Frees(s, a, i)
    ensures !IsStuck(Next(s, a).db, i)
  {
    hide IsStuck, PostOrders.LoseCertificate, PostOrders.FailSubmit, SiteOrders.EndRetry;
    match a
    case Worker(AReport(_, p)) => CertificateMoves(s.db, p, i);
    case Outside(ALoseCertificate(p)) => CertificateMoves(s.db, p, i);
    case Outside(AEndRetry(r)) => RepointedIff(s.db, r, i);
  }

  /** A stuck post stays stuck under a step if and only if the step is not one of the three that free it. */
  lemma StuckIff(s: State, a: Action, i: int)
    requires Inv(s) && IsStuck(s.db, i) && Enabled(s, a)
    ensures IsStuck(Next(s, a).db, i) <==> !Frees(s, a, i)
  {
    hide Inv, IsStuck, Stays, History.Settles, Enabled, Next;
    if Frees(s, a, i) {
      FreeingStep(s, a, i);
    } else if a.Outside? && a.outside.AEndRetry? {
      RepointStuck(s, a.outside.repoint, i);
    } else {
      StepStays(s, a, i);
      History.StepSettles(s, a);
      StaysStuck(s.db, Next(s, a).db, i);
    }
  }

  lemma RepointStuck(s: State, r: Repoint, i: int)
    requires Inv(s) && IsStuck(s.db, i) && Enabled(s, Outside(AEndRetry(r))) && !Frees(s, Outside(AEndRetry(r)), i)
    ensures IsStuck(Next(s, Outside(AEndRetry(r))).db, i)
  {
    hide Inv, Stays, History.Settles, SiteOrders.EndRetry;
    RepointedIff(s.db, r, i);
    RepointSettles(s, r);
    hide IsStuck;
    if r.postTask == NONE || s.db.posts[i].postTask != r.postTask {
      StaysStuck(s.db, SiteOrders.EndRetry(s.db, r), i);
    }
  }

  lemma RepointSettles(s: State, r: Repoint)
    requires Inv(s) && Enabled(s, Outside(AEndRetry(r)))
    ensures History.Settles(s.db, SiteOrders.EndRetry(s.db, r))
  {
    hide Inv, History.Settles, SiteOrders.EndRetry;
    History.StepSettles(s, Outside(AEndRetry(r)));
  }

  ghost function Unfreed(i: int): (State, Action) -> bool {
    (s, a) => !Frees(s, a, i)
  }

  lemma {:induction false} RunStuck(s: State, actions: seq<Action>, i: int)
    requires Inv(s) && IsStuck(s.db, i) && IsRun(s, actions) && Within(s, actions, Unfreed(i))
    ensures IsStuck(After(s, actions).db, i)
    decreases |actions|
  {
    if actions != [] {
      hide Inv, IsStuck, Enabled, Next, Frees;
      StepInv(s, actions[0]);
      StuckIff(s, actions[0], i);
      RunStuck(Next(s, actions[0]), actions[1..], i);
    }
  }

  /** Once stuck, a post stays PENDING on a FINISHED order, and every retry of it is refused, through any run
      that does not free it, whatever is submitted, published, retried and restarted meanwhile. */
  lemma StuckForGood(s: State, actions: seq<Action>, i: int)
    requires Reachable(s) && IsStuck(s.db, i) && IsRun(s, actions) && Within(s, actions, Unfreed(i))
    ensures var db := After(s, actions).db;
            Hanging.Lost(db, i) && db.posts[i].publish == Pending &&
            PostOrders.RetryPost(db, db.posts[i].user, i) == PostOrders.Refused(PostOrders.NoRetryRequired)
  {
    hide Reachable, Inv, IsRun, After, Within;
    ReachableInv(s);
    RunStuck(s, actions, i);
    Refused(After(s, actions).db, i);
  }

  lemma Refused(db: Db, i: int)
    requires IsStuck(db, i)
    ensures Hanging.Lost(db, i) && db.posts[i].publish == Pending
    ensures PostOrders.RetryPost(db, db.posts[i].user, i) == PostOrders.Refused(PostOrders.NoRetryRequired)
  {
  }
}

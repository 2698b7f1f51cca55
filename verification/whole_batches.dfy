/** Runs in which submissions fail as whole batches and certificates are settled before the submission:
    there every post is where its post task is. */
module WholeBatches {
  import opened PipelineTypes
  import opened Tables
  import opened Pipeline
  import opened Invariants
  import opened Runs
  import opened StepTables
  import Overtaking
  import StepKeeps
  import PostOrders
  import PostTasks
  import SiteOrders
  import SiteTasks

  /** No single-post report, and a certificate is lost only before its post is submitted. */
  predicate BatchesOnly(s: State, a: Action) {
    match a
    case Worker(AReport(_, _)) => false
    case Outside(ALoseCertificate(p)) =>
      0 <= p < |s.db.posts| ==> s.db.posts[p].postTask == NONE && s.db.posts[p].submit == Pending
    case _ => true
  }

  /** A post on a task is where its task is, and only a submitted post gets into a publish. */
  predicate InStep(postTasks: seq<PostTask>, p: PostOrder) {
    (p.postTask != NONE ==> 0 <= p.postTask < |postTasks| && p.submit == postTasks[p.postTask].state) &&
    (p.publishOrder != NONE || p.publishTask != NONE ==> p.postTask != NONE && p.submit == Finished) &&
    (p.certificate == Failed ==> p.submit == Failed && p.postTask == NONE) &&
    (p.publish == Failed && p.submit != Failed ==> p.postTask != NONE && p.submit == Finished) &&
    Overtaking.SubmittedFirst(p)
  }

  predicate TaskFinished(postTasks: seq<PostTask>, t: int) {
    0 <= t < |postTasks| && postTasks[t].state == Finished
  }

  ghost predicate AllInStep(db: Db) {
    (forall i :: 0 <= i < |db.posts| ==> InStep(db.postTasks, db.posts[i])) &&
    (forall e :: e in db.retries ==> TaskFinished(db.postTasks, e.postTask)) &&
    (forall r :: r in db.repoints ==> TaskFinished(db.postTasks, r.postTask))
  }

  // ---- operations ----

  /** Posts and post tasks stay, events only go. */
  lemma Untouched(a: Db, b: Db)
    requires AllInStep(a) && b.posts == a.posts && b.postTasks == a.postTasks
    requires b.retries <= a.retries && b.repoints <= a.repoints
    ensures AllInStep(b)
  {
  }

  lemma NewPost(db: Db, user: nat, submit: TaskState, publish: TaskState)
    requires AllInStep(db) && ((submit == Pending && publish == Pending) || (submit == Finished && publish == Finished))
    ensures AllInStep(PostOrders.SavePost(db, user, submit, publish))
  {
  }

  lemma OnePost(db: Db, p: int, row: PostOrder)
    requires AllInStep(db) && 0 <= p < |db.posts| && InStep(db.postTasks, row)
    ensures AllInStep(db.(posts := db.posts[p := row]))
  {
  }

  lemma DeploySaved(db: Db, user: nat, site: int)
    requires AllInStep(db)
    ensures AllInStep(SiteOrders.SaveDeployOrder(db, user, site))
  {
    hide AllInStep;
    NewPost(db, user, Finished, Finished);
    Untouched(db, db);
    var db' := SiteOrders.SaveDeployOrder(db, user, site);
    if db'.posts == db.posts {
      Untouched(db, db');
    } else {
      Untouched(PostOrders.SavePost(db, user, Finished, Finished), db');
    }
  }

  lemma Generated(db: Db, user: nat)
    requires AllInStep(db)
    ensures AllInStep(SiteOrders.GeneratePublishOrder(db, user).db)
  {
    hide AllInStep;
    Untouched(db, SiteOrders.GeneratePublishOrder(db, user).db);
  }

  lemma Retried(db: Db, user: nat, p: int)
    requires AllInStep(db)
    ensures var r := PostOrders.RetryPost(db, user, p); r.Retried? ==> AllInStep(r.db)
  {
    var r := PostOrders.RetryPost(db, user, p);
    if r.Retried? {
      var post := db.posts[p];
      assert InStep(db.postTasks, post);
      OnePost(db, p, r.db.posts[p]);
      assert r.db.retries != db.retries ==> TaskFinished(db.postTasks, post.postTask);
    }
  }

  lemma CertificateLost(db: Db, p: int)
    requires AllInStep(db) && 0 <= p < |db.posts| && db.posts[p].postTask == NONE && db.posts[p].submit == Pending
    ensures AllInStep(PostOrders.LoseCertificate(db, p))
  {
    assert InStep(db.postTasks, db.posts[p]);
    hide AllInStep;
    OnePost(db, p, PostOrders.LoseCertificate(db, p).posts[p]);
  }

  lemma CertificateMoves(db: Db, p: int)
    requires AllInStep(db) && 0 <= p < |db.posts|
    ensures AllInStep(PostOrders.BeginCertificate(db, p)) && AllInStep(PostOrders.StoreCertificate(db, p))
  {
    assert InStep(db.postTasks, db.posts[p]);
    hide AllInStep;
    OnePost(db, p, PostOrders.BeginCertificate(db, p).posts[p]);
    OnePost(db, p, PostOrders.StoreCertificate(db, p).posts[p]);
  }

  lemma Linked(db: Db, site: nat, user: nat)
    requires AllInStep(db)
    ensures AllInStep(SiteTasks.LinkOrGenerate(db, site, user))
  {
    var t := LatestTaskOf(db.publishTasks, site, user);
    hide AllInStep;
    if t != NONE && db.publishTasks[t].state == Pending {
      Stamped(db, site, user, t);
    } else {
      var tasked := db.(publishTasks := db.publishTasks + [PublishTask(user, site, Pending)]);
      Untouched(db, tasked);
      Stamped(tasked, site, user, |db.publishTasks|);
    }
  }

  lemma Stamped(db: Db, site: nat, user: nat, t: nat)
    requires AllInStep(db)
    ensures AllInStep(SiteOrders.StampPublishTask(db, site, user, t))
  {
    var db' := SiteOrders.StampPublishTask(db, site, user, t);
    forall i | 0 <= i < |db'.posts| ensures InStep(db'.postTasks, db'.posts[i]) {
      assert InStep(db.postTasks, db.posts[i]);
    }
  }

  lemma RetryBegun(db: Db, e: RetryEvent)
    requires AllInStep(db) && e in db.retries
    ensures AllInStep(SiteOrders.BeginRetry(db, e))
  {
    var taken := db.(retries := db.retries - multiset{e});
    var g := SiteOrders.GeneratePublishOrder(taken, e.user);
    assert g.db.posts == db.posts && g.db.postTasks == db.postTasks && g.db.retries == taken.retries;
  }

  lemma Repointed(db: Db, r: Repoint)
    requires AllInStep(db) && r in db.repoints
    ensures AllInStep(SiteOrders.EndRetry(db, r))
  {
    var db' := SiteOrders.EndRetry(db, r);
    assert TaskFinished(db.postTasks, r.postTask);
    forall i | 0 <= i < |db'.posts| ensures InStep(db'.postTasks, db'.posts[i]) {
      assert InStep(db.postTasks, db.posts[i]);
    }
  }

  lemma Swept(db: Db, user: nat)
    requires AllInStep(db)
    ensures AllInStep(PostTasks.Generate(db, user))
  {
    var db' := PostTasks.Generate(db, user);
    forall i | 0 <= i < |db'.posts| ensures InStep(db'.postTasks, db'.posts[i]) {
      assert InStep(db.postTasks, db.posts[i]);
    }
  }

  lemma PostTaskMoves(db: Db, t: int, order: int)
    requires AllInStep(db) && 0 <= t < |db.postTasks|
    ensures db.postTasks[t].state == Pending ==> AllInStep(PostTasks.DoingTask(db, t))
    ensures db.postTasks[t].state == Doing && order != NONE ==>
      AllInStep(PostTasks.FinishTask(db, t, order)) && AllInStep(PostTasks.FailTask(db, t))
  {
    hide AllInStep;
    if db.postTasks[t].state == Pending {
      TaskMoves(db, t, PostTasks.DoingTask(db, t));
    } else if db.postTasks[t].state == Doing && order != NONE {
      TaskMoves(db, t, PostTasks.FinishTask(db, t, order));
      TaskMoves(db, t, PostTasks.FailTask(db, t));
    }
  }

  /** A task moves on together with the posts that are on it. */
  lemma TaskMoves(a: Db, t: int, b: Db)
    requires AllInStep(a) && 0 <= t < |a.postTasks| && |b.postTasks| == |a.postTasks| && |b.posts| == |a.posts|
    requires forall u :: 0 <= u < |a.postTasks| && u != t ==> b.postTasks[u].state == a.postTasks[u].state
    requires a.postTasks[t].state in {Pending, Doing}
    requires forall i :: 0 <= i < |a.posts| && a.posts[i].postTask != t ==> b.posts[i] == a.posts[i]
    requires forall i :: 0 <= i < |a.posts| && a.posts[i].postTask == t && a.posts[i].submit == a.postTasks[t].state ==>
      b.posts[i].submit == b.postTasks[t].state && b.posts[i].postTask == t &&
      (b.posts[i].publishOrder == a.posts[i].publishOrder || b.posts[i].submit == Finished) &&
      b.posts[i].publishTask == a.posts[i].publishTask && b.posts[i].certificate == a.posts[i].certificate &&
      (b.posts[i].publish == a.posts[i].publish || (b.posts[i].publish == Failed && b.posts[i].submit == Failed))
    requires b.retries == a.retries && b.repoints == a.repoints
    ensures AllInStep(b)
  {
    forall i | 0 <= i < |b.posts| ensures InStep(b.postTasks, b.posts[i]) {
      assert InStep(a.postTasks, a.posts[i]);
    }
  }

  lemma PublishMoves(db: Db, t: int, state: TaskState, status: SiteStatus)
    requires AllInStep(db) && t != NONE && state in {Doing, Finished, Failed}
    ensures AllInStep(SiteTasks.MovePublish(db, t, state, status))
  {
    var db' := SiteTasks.MovePublish(db, t, state, status);
    forall i | 0 <= i < |db'.posts| ensures InStep(db'.postTasks, db'.posts[i]) {
      assert InStep(db.postTasks, db.posts[i]);
    }
  }

  // ---- steps ----

  lemma OutsideInStep(s: State, a: OutsideAction)
    requires AllInStep(s.db) && OutsideEnabled(s, a) && BatchesOnly(s, Outside(a))
    ensures AllInStep(OutsideNext(s, a).db)
  {
    hide AllInStep, SiteOrders.SaveDeployOrder, SiteOrders.GeneratePublishOrder, SiteTasks.LinkOrGenerate,
         SiteOrders.EndRetry, SiteOrders.BeginRetry, PostOrders.RetryPost, PostOrders.SavePost,
         PostOrders.BeginCertificate, PostOrders.StoreCertificate, PostOrders.LoseCertificate;
    match a
    case ATick => Untouched(s.db, OutsideNext(s, a).db);
    case ACreateSite(_) => Untouched(s.db, OutsideNext(s, a).db);
    case ASavePost(user) => NewPost(s.db, user, Pending, Pending);
    case ARequestDeploy(user, site) => DeploySaved(s.db, user, site);
    case ARequestPublish(user) => Generated(s.db, user);
    case ARetry(user, p) => Retried(s.db, user, p);
    case ABeginCertificate(p) => CertificateMoves(s.db, p);
    case AStoreCertificate(p) => CertificateMoves(s.db, p);
    case ALoseCertificate(p) => CertificateLost(s.db, p);
    case ADeliverLink(e) =>
      var taken := s.db.(links := s.db.links - multiset{e});
      Untouched(s.db, taken);
      Linked(taken, e.site, e.user);
    case ABeginRetry(e) => RetryBegun(s.db, e);
    case AEndRetry(r) => Repointed(s.db, r);
  }

  lemma DeployInStep(db: Db, d: int, site: nat, user: nat, state: TaskState, status: SiteStatus)
    requires AllInStep(db)
    ensures 0 <= d < |db.deployOrders| ==> AllInStep(SiteTasks.StartDeploy(db, d, site, user))
    ensures AllInStep(SiteTasks.CloseDeploy(db, d, state, status))
  {
    hide AllInStep;
    if 0 <= d < |db.deployOrders| { Untouched(db, SiteTasks.StartDeploy(db, d, site, user)); }
    Untouched(db, SiteTasks.CloseDeploy(db, d, state, status));
  }

  lemma FailInStep(db: Db, j: Job)
    requires AllInStep(db) && TaskDoing(db, j)
    ensures AllInStep(FailTask(db, j))
  {
    hide AllInStep;
    match j.kind
    case DeployJob => DeployInStep(db, j.task, 0, 0, Failed, DeployFailed);
    case PostJob => PostTaskMoves(db, j.task, 0);
    case PublishJob => PublishMoves(db, j.task, Failed, PublishFailed);
  }

  lemma DispatcherInStep(s: State, a: DispatcherAction)
    requires Inv(s) && AllInStep(s.db) && DispatcherEnabled(s, a)
    ensures AllInStep(DispatcherNext(s, a).db)
  {
    hide Inv, AllInStep, DispatcherNext, FailTask, PostTasks.Generate, PostTasks.DoingTask, SiteTasks.StartDeploy,
         SiteTasks.LinkOrGenerate, SiteTasks.MovePublish, FirstDeploy, FirstPublish, FirstPost, TaskDoing;
    DispatcherDb(s, a);
    match a
    case AStartDeploy =>
      var o := s.db.deployOrders[s.phase.choice.d];
      DeployInStep(s.db, s.phase.choice.d, o.site, o.user, Failed, DeployFailed);
    case ASweep => Swept(s.db, s.db.posts[s.phase.choice.p].user);
    case AMarkPosts => SweptPending(s); PostTaskMoves(s.db, s.phase.postTask, 0);
    case ALinkForPublish =>
      var o := s.db.publishOrders[s.phase.choice.o];
      Linked(s.db, o.site, o.user);
    case AMarkPublish =>
      if DispatcherNext(s, a).db != s.db {
        PublishMoves(s.db, s.db.publishOrders[s.phase.order].task, Doing, Publishing);
      }
    case AAbandon => StepKeeps.InFlight(s, s.phase.job); FailInStep(s.db, s.phase.job);
    case _ =>
  }

  lemma SweptPending(s: State)
    requires Inv(s) && s.phase.Swept?
    ensures 0 <= s.phase.postTask < |s.db.postTasks| && s.db.postTasks[s.phase.postTask].state == Pending
  {
  }

  lemma WorkerInStep(s: State, a: WorkerAction)
    requires Inv(s) && AllInStep(s.db) && WorkerEnabled(s, a) && BatchesOnly(s, Worker(a))
    ensures AllInStep(WorkerNext(s, a).db)
  {
    hide Inv, AllInStep, WorkerNext, FailTask, PostTasks.FinishTask, SiteTasks.CloseDeploy, SiteTasks.MovePublish,
         SiteOrders.GeneratePublishOrder;
    WorkerDb(s, a);
    match a
    case AStartJob(_) =>
    case ACompleteDeploy(t) => DeployInStep(s.db, t, 0, 0, Finished, Deployed);
    case AOrderFirstPublish(t) => Generated(s.db, s.db.deployTasks[t].user);
    case ACompletePosts(t) => Generated(s.db, s.db.postTasks[t].user);
    case AFinishPosts(t) =>
      StepKeeps.InFlight(s, Job(PostJob, t));
      StepKeeps.ClosingOrder(s, t);
      PostTaskMoves(s.db, t, s.closing[t]);
    case ACompletePublish(t) => StepKeeps.InFlight(s, Job(PublishJob, t)); PublishMoves(s.db, t, Finished, Published);
    case AFailJob(j) => StepKeeps.InFlight(s, j); FailInStep(s.db, j);
  }

  lemma StepInStep(s: State, a: Action)
    requires Inv(s) && AllInStep(s.db) && Enabled(s, a) && BatchesOnly(s, a)
    ensures AllInStep(Next(s, a).db)
  {
    hide Inv, AllInStep, BatchesOnly, OutsideEnabled, OutsideNext, DispatcherEnabled, DispatcherNext, WorkerEnabled, WorkerNext;
    match a
    case Outside(o) => OutsideInStep(s, o);
    case Dispatcher(d) => DispatcherInStep(s, d);
    case Worker(w) => WorkerInStep(s, w);
  }

  lemma {:induction false} RunInStep(s: State, actions: seq<Action>)
    requires Inv(s) && AllInStep(s.db) && IsRun(s, actions) && Within(s, actions, BatchesOnly)
    ensures AllInStep(After(s, actions).db)
    decreases |actions|
  {
    if actions != [] {
      hide Inv, AllInStep, Enabled, Next;
      StepInv(s, actions[0]);
      StepInStep(s, actions[0]);
      RunInStep(Next(s, actions[0]), actions[1..]);
    }
  }

  /** In such a run from the empty tables every post that has a post task is in its state. */
  lemma PostsFollowTheirTask(wipLimit: nat, concurrency: nat, actions: seq<Action>)
    requires IsRun(Start(wipLimit, concurrency), actions)
    requires Within(Start(wipLimit, concurrency), actions, BatchesOnly)
    ensures var db := After(Start(wipLimit, concurrency), actions).db;
            forall p :: p in db.posts && p.postTask != NONE ==>
              0 <= p.postTask < |db.postTasks| && p.submit == db.postTasks[p.postTask].state
  {
    StartInv(wipLimit, concurrency);
    RunInStep(Start(wipLimit, concurrency), actions);
  }

  /** Such runs keep to the guards of publishing behind submission. */
  lemma BatchesAreHarmless(s: State, a: Action)
    requires AllInStep(s.db) && Enabled(s, a) && BatchesOnly(s, a)
    ensures Overtaking.Harmless(s, a)
  {
    forall i | 0 <= i < |s.db.posts| ensures InStep(s.db.postTasks, s.db.posts[i]) { }
    match a
    case Outside(AEndRetry(r)) => assert r in s.db.repoints;
    case _ =>
  }
}

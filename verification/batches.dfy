/** A batch of posts from the sweep to the end of its task: which posts a successful submission
    finishes, whatever else happens meanwhile. */
module Batches {
  import opened PipelineTypes
  import opened Pipeline
  import opened Invariants
  import opened Runs
  import opened History
  import opened StepTables
  import PostOrders
  import PostTasks
  import SiteOrders
  import SiteTasks

  /** The running posts of the task. */
  function Batch(posts: seq<PostOrder>, t: int): set<int> {
    set i | 0 <= i < |posts| && posts[i].postTask == t && posts[i].submit == Doing
  }

  /** The posts that carry the task's id, whatever their state. */
  function Stamped(posts: seq<PostOrder>, t: int): set<int> {
    set i | 0 <= i < |posts| && posts[i].postTask == t
  }

  /** The posts of the user that wait for submission. */
  function Waiting(posts: seq<PostOrder>, user: nat): set<int> {
    set i | 0 <= i < |posts| && posts[i].user == user && posts[i].submit == Pending
  }

  /** The post that the action takes out of its batch or its publish: one named by a single-post report
      or a lost certificate, or one that is retried because its certificate or submission failed. */
  function Hit(s: State, a: Action): set<int> {
    match a
    case Outside(ALoseCertificate(p)) => {p}
    case Outside(ARetry(user, p)) =>
      if 0 <= p < |s.db.posts| && s.db.posts[p].user == user &&
         (s.db.posts[p].certificate == Failed || s.db.posts[p].submit == Failed) then {p} else {}
    case Worker(AReport(_, p)) => {p}
    case _ => {}
  }

  ghost function Hits(s: State, actions: seq<Action>): set<int>
    requires IsRun(s, actions)
    decreases |actions|
  {
    if actions == [] then {} else Hit(s, actions[0]) + Hits(Next(s, actions[0]), actions[1..])
  }

  /** The sweep stamps exactly the posts of the user that wait for submission. */
  lemma SweepTakesWaiting(db: Db, user: nat)
    requires PostInv(db.publishOrders, db.publishTasks, db.posts, db.postTasks)
    ensures Stamped(PostTasks.Generate(db, user).posts, |db.postTasks|) == Waiting(db.posts, user)
  {
    var posts' := PostTasks.Generate(db, user).posts;
    forall i | 0 <= i < |db.posts|
      ensures posts'[i].postTask == |db.postTasks| <==> db.posts[i].user == user && db.posts[i].submit == Pending
    {
      assert PostOk(db.publishOrders, db.publishTasks, db.postTasks, db.posts[i]);
    }
  }

  /** Marking runs every post that carries the id. */
  lemma MarkRunsStamped(db: Db, t: int)
    ensures Batch(PostTasks.DoingTask(db, t).posts, t) == Stamped(db.posts, t)
  {
  }

  lemma OutsideBatch(s: State, a: OutsideAction, t: int)
    requires OutsideEnabled(s, a) && 0 <= t
    ensures Batch(OutsideNext(s, a).db.posts, t) == Batch(s.db.posts, t) - Hit(s, Outside(a))
  {
    hide Batch, SiteOrders.SaveDeployOrder, SiteOrders.GeneratePublishOrder, SiteTasks.LinkOrGenerate,
         SiteOrders.EndRetry, SiteOrders.BeginRetry, PostOrders.RetryPost;
    var posts' := OutsideNext(s, a).db.posts;
    match a
    case ATick =>
    case ACreateSite(_) =>
    case ASavePost(user) => OnePostMore(s.db.posts, posts', t);
    case ARequestDeploy(user, site) => DeploySavedPosts(s.db, user, site, t);
    case ARequestPublish(user) => GeneratedPosts(s.db, user);
    case ARetry(user, p) => RetriedPosts(s.db, user, p, t);
    case ABeginCertificate(p) => OnePost(s.db.posts, p, posts'[p], t);
    case AStoreCertificate(p) => OnePost(s.db.posts, p, posts'[p], t);
    case ALoseCertificate(p) => OnePost(s.db.posts, p, posts'[p], t);
    case ADeliverLink(e) => LinkedPosts(s.db.(links := s.db.links - multiset{e}), e.site, e.user, t);
    case ABeginRetry(e) => RetryBegunPosts(s.db, e);
    case AEndRetry(r) => RepointedPosts(s.db, r, t);
  }

  /** One row changes but does not start to run. */
  lemma OnePost(posts: seq<PostOrder>, p: int, row: PostOrder, t: int)
    requires 0 <= p < |posts|
    requires row.submit == Doing ==> posts[p].submit == Doing && row.postTask == posts[p].postTask
    ensures Batch(posts[p := row], t) ==
      if row.submit == Doing then Batch(posts, t) else Batch(posts, t) - {p}
    ensures posts[p].submit != Doing ==> Batch(posts[p := row], t) == Batch(posts, t)
  {
  }

  lemma OnePostMore(a: seq<PostOrder>, b: seq<PostOrder>, t: int)
    requires |b| == |a| + 1 && b[..|a|] == a && b[|a|].submit != Doing
    ensures Batch(b, t) == Batch(a, t)
  {
    assert forall i :: 0 <= i < |a| ==> b[i] == b[..|a|][i];
  }

  lemma DeploySavedPosts(db: Db, user: nat, site: int, t: int)
    ensures Batch(SiteOrders.SaveDeployOrder(db, user, site).posts, t) == Batch(db.posts, t)
  {
  }

  lemma GeneratedPosts(db: Db, user: nat)
    ensures SiteOrders.GeneratePublishOrder(db, user).db.posts == db.posts
  {
  }

  lemma RetriedPosts(db: Db, user: nat, p: int, t: int)
    ensures var r := PostOrders.RetryPost(db, user, p);
            var lost := 0 <= p < |db.posts| && db.posts[p].user == user &&
                        (db.posts[p].certificate == Failed || db.posts[p].submit == Failed);
            if r.Retried? then Batch(r.db.posts, t) == Batch(db.posts, t) - if lost then {p} else {} else !lost
  {
    var r := PostOrders.RetryPost(db, user, p);
    if r.Retried? {
      OnePost(db.posts, p, r.db.posts[p], t);
    }
  }

  lemma RetryBegunPosts(db: Db, e: RetryEvent)
    ensures SiteOrders.BeginRetry(db, e).posts == db.posts
  {
  }

  lemma RepointedPosts(db: Db, r: Repoint, t: int)
    ensures Batch(SiteOrders.EndRetry(db, r).posts, t) == Batch(db.posts, t)
  {
  }

  lemma LinkedPosts(db: Db, site: nat, user: nat, t: int)
    ensures Batch(SiteTasks.LinkOrGenerate(db, site, user).posts, t) == Batch(db.posts, t)
  {
  }

  /** Only the sweep, the marking and the end of a dispatch touch the submission of posts. */
  lemma DispatcherBatch(s: State, a: DispatcherAction, t: int)
    requires Inv(s) && DispatcherEnabled(s, a) && TaskDoing(s.db, Job(PostJob, t))
    requires TaskDoing(DispatcherNext(s, a).db, Job(PostJob, t))
    ensures Batch(DispatcherNext(s, a).db.posts, t) == Batch(s.db.posts, t)
  {
    DispatcherDb(s, a);
    NotHeld(s, t);
    hide Inv, Batch, DispatcherNext, FailTask, PostTasks.Generate, PostTasks.DoingTask, SiteTasks.LinkOrGenerate,
         SiteTasks.DoingPublish;
    match a
    case ASweep => SweptBatch(s.db, s.db.posts[s.phase.choice.p].user, t);
    case AMarkPosts => MarkedBatch(s.db, s.phase.postTask, t);
    case ALinkForPublish =>
      var order := s.db.publishOrders[s.phase.choice.o];
      LinkedPosts(s.db, order.site, order.user, t);
    case AMarkPublish => MarkPublishBatch(s.db, s.db.publishOrders[s.phase.order].task, t);
    case AAbandon => FailedBatch(s.db, s.phase.job, t);
    case _ =>
  }

  /** The task about to be marked is not the running one. */
  lemma NotHeld(s: State, t: int)
    requires Inv(s) && TaskDoing(s.db, Job(PostJob, t))
    ensures s.phase.Swept? ==> s.phase.postTask != t
  {
  }

  lemma MarkPublishBatch(db: Db, u: int, t: int)
    ensures Batch(SiteTasks.DoingPublish(db, u).posts, t) == Batch(db.posts, t)
  {
    MovedBatch(db, u, Doing, Publishing, t);
  }

  lemma SweptBatch(db: Db, user: nat, t: int)
    requires t < |db.postTasks|
    ensures Batch(PostTasks.Generate(db, user).posts, t) == Batch(db.posts, t)
  {
  }

  lemma MarkedBatch(db: Db, u: int, t: int)
    requires t != u
    ensures Batch(PostTasks.DoingTask(db, u).posts, t) == Batch(db.posts, t)
  {
  }

  lemma MovedBatch(db: Db, u: int, state: TaskState, status: SiteStatus, t: int)
    ensures Batch(SiteTasks.MovePublish(db, u, state, status).posts, t) == Batch(db.posts, t)
  {
  }

  lemma FailedBatch(db: Db, j: Job, t: int)
    requires TaskDoing(FailTask(db, j), Job(PostJob, t))
    ensures Batch(FailTask(db, j).posts, t) == Batch(db.posts, t)
  {
  }

  lemma FinishedBatch(db: Db, u: int, order: int, t: int)
    requires TaskDoing(PostTasks.FinishTask(db, u, order), Job(PostJob, t))
    ensures Batch(PostTasks.FinishTask(db, u, order).posts, t) == Batch(db.posts, t)
  {
  }

  lemma DeployedBatch(db: Db, u: int)
    ensures SiteTasks.FinishDeploy(db, u).posts == db.posts
  {
  }

  lemma PublishedBatch(db: Db, u: int, t: int)
    ensures Batch(SiteTasks.FinishPublish(db, u).posts, t) == Batch(db.posts, t)
  {
    MovedBatch(db, u, Finished, Published, t);
  }

  lemma ReportedBatch(db: Db, p: int, t: int)
    requires 0 <= p < |db.posts|
    ensures Batch(PostOrders.FailSubmit(db, p).posts, t) == Batch(db.posts, t) - {p}
  {
    OnePost(db.posts, p, PostOrders.FailSubmit(db, p).posts[p], t);
  }

  lemma WorkerBatch(s: State, a: WorkerAction, t: int)
    requires WorkerEnabled(s, a) && TaskDoing(WorkerNext(s, a).db, Job(PostJob, t))
    ensures Batch(WorkerNext(s, a).db.posts, t) == Batch(s.db.posts, t) - Hit(s, Worker(a))
  {
    hide Batch, SiteOrders.GeneratePublishOrder, FailTask, PostTasks.FinishTask, TaskDoing, SiteTasks.FinishDeploy,
         SiteTasks.FinishPublish, PostOrders.FailSubmit, WorkerNext;
    WorkerDb(s, a);
    match a
    case AStartJob(_) =>
    case AReport(_, p) => ReportedBatch(s.db, p, t);
    case ACompleteDeploy(u) => DeployedBatch(s.db, u);
    case AOrderFirstPublish(u) => GeneratedPosts(s.db, s.db.deployTasks[u].user);
    case ACompletePosts(u) => GeneratedPosts(s.db, s.db.postTasks[u].user);
    case AFinishPosts(u) => FinishedBatch(s.db, u, s.closing[u], t);
    case ACompletePublish(u) => PublishedBatch(s.db, u, t);
    case AFailJob(j) => FailedBatch(s.db, j, t);
  }

  /** While its task runs, a batch loses exactly the post that the action hits. */
  lemma StepBatch(s: State, a: Action, t: int)
    requires Inv(s) && Enabled(s, a)
    requires TaskDoing(s.db, Job(PostJob, t)) && TaskDoing(Next(s, a).db, Job(PostJob, t))
    ensures Batch(Next(s, a).db.posts, t) == Batch(s.db.posts, t) - Hit(s, a)
  {
    hide Inv, Batch, Hit, OutsideEnabled, OutsideNext, DispatcherEnabled, DispatcherNext, WorkerEnabled, WorkerNext;
    match a
    case Outside(o) => OutsideBatch(s, o, t);
    case Dispatcher(d) => DispatcherBatch(s, d, t); NoHit(s, d);
    case Worker(w) => WorkerBatch(s, w, t);
  }

  lemma NoHit(s: State, d: DispatcherAction)
    ensures Hit(s, Dispatcher(d)) == {}
  {
  }

  /** A task that has started and is not over at the end of a run was running all the time. */
  lemma StillDoing(s: State, a: Action, rest: seq<Action>, t: int)
    requires Inv(s) && Enabled(s, a) && IsRun(Next(s, a), rest)
    requires TaskDoing(s.db, Job(PostJob, t)) && TaskDoing(After(Next(s, a), rest).db, Job(PostJob, t))
    ensures TaskDoing(Next(s, a).db, Job(PostJob, t))
  {
    hide Inv, Enabled, Next, After, IsRun;
    StepInv(s, a);
    StepSettles(s, a);
    RunSettles(Next(s, a), rest);
  }

  /** Over a run during which task t keeps running, its batch loses exactly the posts that are hit. */
  lemma {:induction false} RunBatch(s: State, actions: seq<Action>, t: int)
    requires Inv(s) && IsRun(s, actions)
    requires TaskDoing(s.db, Job(PostJob, t)) && TaskDoing(After(s, actions).db, Job(PostJob, t))
    ensures Batch(After(s, actions).db.posts, t) == Batch(s.db.posts, t) - Hits(s, actions)
    decreases |actions|
  {
    if actions != [] {
      hide Inv, Batch, Hit, Enabled, Next, TaskDoing;
      StepInv(s, actions[0]);
      StillDoing(s, actions[0], actions[1..], t);
      StepBatch(s, actions[0], t);
      RunBatch(Next(s, actions[0]), actions[1..], t);
    }
  }

  // ---- from the choice to the marking ----

  /** The dispatcher takes no step: users, uploads, handlers and jobs go on. */
  predicate Meanwhile(actions: seq<Action>) {
    forall i :: 0 <= i < |actions| ==> !actions[i].Dispatcher?
  }

  lemma MeanwhileRest(actions: seq<Action>)
    requires Meanwhile(actions) && actions != []
    ensures Meanwhile(actions[1..])
  {
    forall i | 0 <= i < |actions[1..]| ensures !actions[1..][i].Dispatcher? {
      assert actions[1..][i] == actions[i + 1];
    }
  }

  function Retries(actions: seq<Action>): set<int> {
    set i | 0 <= i < |actions| && actions[i].Outside? && actions[i].outside.ARetry? :: actions[i].outside.p
  }

  /** Between the sweep and the marking only a retry takes a post off the task, and nothing joins it. */
  ghost predicate Loses(a: Db, b: Db, t: int, retried: set<int>) {
    Stamped(b.posts, t) <= Stamped(a.posts, t) && Stamped(a.posts, t) - retried <= Stamped(b.posts, t)
  }

  lemma OnePostStamp(posts: seq<PostOrder>, p: int, row: PostOrder, t: int)
    requires 0 <= p < |posts| && (row.postTask == posts[p].postTask || row.postTask == NONE) && t != NONE
    ensures Stamped(posts[p := row], t) <= Stamped(posts, t) <= Stamped(posts[p := row], t) + {p}
    ensures row.postTask == posts[p].postTask ==> Stamped(posts[p := row], t) == Stamped(posts, t)
  {
  }

  lemma DeploySavedStamp(db: Db, user: nat, site: int, t: int)
    requires t != NONE
    ensures Stamped(SiteOrders.SaveDeployOrder(db, user, site).posts, t) == Stamped(db.posts, t)
  {
  }

  lemma LinkedStamp(db: Db, site: nat, user: nat, t: int)
    ensures Stamped(SiteTasks.LinkOrGenerate(db, site, user).posts, t) == Stamped(db.posts, t)
  {
  }

  lemma RepointedStamp(db: Db, r: Repoint, t: int)
    ensures Stamped(SiteOrders.EndRetry(db, r).posts, t) == Stamped(db.posts, t)
  {
  }

  lemma RetriedStamp(db: Db, user: nat, p: int, t: int)
    requires t != NONE
    ensures var r := PostOrders.RetryPost(db, user, p);
            r.Retried? ==> Stamped(r.db.posts, t) <= Stamped(db.posts, t) <= Stamped(r.db.posts, t) + {p}
  {
    var r := PostOrders.RetryPost(db, user, p);
    if r.Retried? {
      OnePostStamp(db.posts, p, r.db.posts[p], t);
    }
  }

  lemma OnePostMoreStamp(a: seq<PostOrder>, b: seq<PostOrder>, t: int)
    requires |b| == |a| + 1 && b[..|a|] == a && b[|a|].postTask != t
    ensures Stamped(b, t) == Stamped(a, t)
  {
    assert forall i :: 0 <= i < |a| ==> b[i] == b[..|a|][i];
  }

  lemma OutsideStamp(s: State, a: OutsideAction, t: int)
    requires OutsideEnabled(s, a) && t != NONE
    ensures Loses(s.db, OutsideNext(s, a).db, t, Retries([Outside(a)]))
  {
    hide Stamped, SiteOrders.SaveDeployOrder, SiteOrders.GeneratePublishOrder, SiteTasks.LinkOrGenerate,
         SiteOrders.EndRetry, SiteOrders.BeginRetry, PostOrders.RetryPost;
    var posts' := OutsideNext(s, a).db.posts;
    match a
    case ATick =>
    case ACreateSite(_) =>
    case ASavePost(_) => OnePostMoreStamp(s.db.posts, posts', t);
    case ARequestDeploy(user, site) => DeploySavedStamp(s.db, user, site, t);
    case ARequestPublish(user) => GeneratedPosts(s.db, user);
    case ARetry(user, p) =>
      RetriedStamp(s.db, user, p, t);
      assert [Outside(a)][0] == Outside(a);
      assert p in Retries([Outside(a)]);
    case ABeginCertificate(p) => OnePostStamp(s.db.posts, p, posts'[p], t);
    case AStoreCertificate(p) => OnePostStamp(s.db.posts, p, posts'[p], t);
    case ALoseCertificate(p) => OnePostStamp(s.db.posts, p, posts'[p], t);
    case ADeliverLink(e) => LinkedStamp(s.db.(links := s.db.links - multiset{e}), e.site, e.user, t);
    case ABeginRetry(e) => RetryBegunPosts(s.db, e);
    case AEndRetry(r) => RepointedStamp(s.db, r, t);
  }

  lemma FailedStamp(db: Db, j: Job, t: int)
    ensures Stamped(FailTask(db, j).posts, t) == Stamped(db.posts, t)
  {
  }

  lemma FinishedStamp(db: Db, u: int, order: int, t: int)
    ensures Stamped(PostTasks.FinishTask(db, u, order).posts, t) == Stamped(db.posts, t)
  {
  }

  lemma PublishedStamp(db: Db, u: int, t: int)
    ensures Stamped(SiteTasks.FinishPublish(db, u).posts, t) == Stamped(db.posts, t)
  {
  }

  lemma WorkerStamp(s: State, a: WorkerAction, t: int)
    requires WorkerEnabled(s, a) && t != NONE
    ensures Stamped(WorkerNext(s, a).db.posts, t) == Stamped(s.db.posts, t)
  {
    hide Stamped, SiteOrders.GeneratePublishOrder, FailTask, PostTasks.FinishTask, SiteTasks.FinishDeploy,
         SiteTasks.FinishPublish, WorkerNext;
    WorkerDb(s, a);
    match a
    case AStartJob(_) =>
    case AReport(_, p) => OnePostStamp(s.db.posts, p, PostOrders.FailSubmit(s.db, p).posts[p], t);
    case ACompleteDeploy(u) => DeployedBatch(s.db, u);
    case AOrderFirstPublish(u) => GeneratedPosts(s.db, s.db.deployTasks[u].user);
    case ACompletePosts(u) => GeneratedPosts(s.db, s.db.postTasks[u].user);
    case AFinishPosts(u) => FinishedStamp(s.db, u, s.closing[u], t);
    case ACompletePublish(u) => PublishedStamp(s.db, u, t);
    case AFailJob(j) => FailedStamp(s.db, j, t);
  }

  lemma {:induction false} MeanwhileStamp(s: State, actions: seq<Action>, t: int)
    requires IsRun(s, actions) && Meanwhile(actions) && t != NONE
    ensures Loses(s.db, After(s, actions).db, t, Retries(actions))
    decreases |actions|
  {
    if actions != [] {
      var a := actions[0];
      StampStep(s, a, t);
      hide Enabled, Next, Stamped;
      MeanwhileRest(actions);
      MeanwhileStamp(Next(s, a), actions[1..], t);
      RetriesSplit(actions);
    }
  }

  lemma StampStep(s: State, a: Action, t: int)
    requires Enabled(s, a) && !a.Dispatcher? && t != NONE
    ensures Loses(s.db, Next(s, a).db, t, Retries([a]))
  {
    hide OutsideEnabled, OutsideNext, WorkerEnabled, WorkerNext, Stamped;
    match a
    case Outside(o) => OutsideStamp(s, o, t);
    case Worker(w) => WorkerStamp(s, w, t);
  }

  lemma RetriesSplit(actions: seq<Action>)
    requires actions != []
    ensures Retries([actions[0]]) <= Retries(actions) && Retries(actions[1..]) <= Retries(actions)
  {
    assert [actions[0]][0] == actions[0];
    forall p | p in Retries(actions[1..]) ensures p in Retries(actions) {
      var i :| 0 <= i < |actions[1..]| && actions[1..][i].Outside? && actions[1..][i].outside.ARetry? &&
               actions[1..][i].outside.p == p;
      assert actions[i + 1] == actions[1..][i];
    }
  }

  // ---- the whole life of a batch ----

  /** The posts that FINISHED or FAILED at the end of the task are exactly those that carried its id
      at the marking, less those hit in between; every other post keeps its row. */
  lemma BatchConservation(s: State, actions: seq<Action>, order: int, db: Db)
    requires Reachable(s) && s.phase.Swept?
    requires IsRun(MarkPosts(s), actions) && db == After(MarkPosts(s), actions).db
    requires TaskDoing(db, Job(PostJob, s.phase.postTask))
    ensures var t := s.phase.postTask;
            var batch := Stamped(s.db.posts, t) - Hits(MarkPosts(s), actions);
            var finished := PostTasks.FinishTask(db, t, order);
            var failed := PostTasks.FailTask(db, t);
            batch == Batch(db.posts, t) &&
            forall i :: 0 <= i < |db.posts| ==>
              finished.posts[i] ==
                (if i in batch then db.posts[i].(submit := Finished, publishOrder := order) else db.posts[i]) &&
              failed.posts[i] ==
                if i in batch then db.posts[i].(submit := Failed, publish := Failed) else db.posts[i]
  {
    hide Reachable, Inv, TaskDoing, Batch, Stamped, PostTasks.FinishTask, PostTasks.FailTask, MarkPosts, Hits, IsRun, After;
    ReachableInv(s);
    MarkedBatchRuns(s, actions, db);
    BatchEnds(db, s.phase.postTask, order);
  }

  lemma MarkedBatchRuns(s: State, actions: seq<Action>, db: Db)
    requires Inv(s) && s.phase.Swept?
    requires IsRun(MarkPosts(s), actions) && db == After(MarkPosts(s), actions).db
    requires TaskDoing(db, Job(PostJob, s.phase.postTask))
    ensures Batch(db.posts, s.phase.postTask) == Stamped(s.db.posts, s.phase.postTask) - Hits(MarkPosts(s), actions)
  {
    hide Inv, TaskDoing, Batch, Stamped;
    MarkedIsDoing(s);
    MarkRunsStamped(s.db, s.phase.postTask);
    MarkedInv(s);
    RunBatch(MarkPosts(s), actions, s.phase.postTask);
  }

  lemma MarkedInv(s: State)
    requires Inv(s) && s.phase.Swept?
    ensures Inv(MarkPosts(s))
  {
    hide Inv, MarkPosts;
    StepInv(s, Dispatcher(AMarkPosts));
  }

  lemma BatchEnds(db: Db, t: int, order: int)
    ensures var batch := Batch(db.posts, t);
            forall i :: 0 <= i < |db.posts| ==>
              PostTasks.FinishTask(db, t, order).posts[i] ==
                (if i in batch then db.posts[i].(submit := Finished, publishOrder := order) else db.posts[i]) &&
              PostTasks.FailTask(db, t).posts[i] ==
                if i in batch then db.posts[i].(submit := Failed, publish := Failed) else db.posts[i]
  {
  }

  lemma MarkedIsDoing(s: State)
    requires Inv(s) && s.phase.Swept?
    ensures TaskDoing(MarkPosts(s).db, Job(PostJob, s.phase.postTask))
  {
  }

  /** From the sweep to the end: only posts that waited for submission at the sweep are finished, and
      of those all that were neither retried before the marking nor hit after it. */
  lemma SweptPostsFinish(s: State, before: seq<Action>, held: State, after: seq<Action>, db: Db)
    requires Reachable(s) && DispatcherEnabled(s, ASweep) && Sweep(s).phase.Swept?
    requires IsRun(Sweep(s), before) && Meanwhile(before) && held == After(Sweep(s), before)
    requires held.phase == Swept(|s.db.postTasks|)
    requires IsRun(MarkPosts(held), after) && db == After(MarkPosts(held), after).db
    requires TaskDoing(db, Job(PostJob, |s.db.postTasks|))
    ensures var waiting := Waiting(s.db.posts, s.db.posts[s.phase.choice.p].user);
            var finished := Batch(db.posts, |s.db.postTasks|);
            finished <= waiting && waiting - Retries(before) - Hits(MarkPosts(held), after) <= finished
  {
    hide Reachable, Inv, PostInv, TaskDoing, Batch, Stamped, Waiting, Sweep, MarkPosts, IsRun, After, Meanwhile, Hits;
    ReachableInv(s);
    SweptRows(s);
    RunInv(Sweep(s), before);
    MeanwhileStamp(Sweep(s), before, |s.db.postTasks|);
    MarkedBatchRuns(held, after, db);
  }

  lemma SweptRows(s: State)
    requires Inv(s) && DispatcherEnabled(s, ASweep) && Sweep(s).phase.Swept?
    ensures Inv(Sweep(s))
    ensures Stamped(Sweep(s).db.posts, |s.db.postTasks|) == Waiting(s.db.posts, s.db.posts[s.phase.choice.p].user)
  {
    hide PostInv, PostTasks.Generate;
    PostRows(s);
    SweepTakesWaiting(s.db, s.db.posts[s.phase.choice.p].user);
    SweepKeepsInv(s);
  }

  lemma SweepKeepsInv(s: State)
    requires Inv(s) && DispatcherEnabled(s, ASweep)
    ensures Inv(Sweep(s))
  {
    hide Inv, Sweep;
    StepInv(s, Dispatcher(ASweep));
  }

  lemma PostRows(s: State)
    requires Inv(s)
    ensures PostInv(s.db.publishOrders, s.db.publishTasks, s.db.posts, s.db.postTasks)
  {
  }

  // ---- the chosen post ----

  /** The fields of a post that its selection looked at. */
  predicate StillWaits(a: Db, b: Db, p: int)
    requires 0 <= p < |a.posts|
  {
    p < |b.posts| && b.posts[p].user == a.posts[p].user &&
    (a.posts[p].submit == Pending ==> b.posts[p].submit == Pending)
  }

  lemma LinkWaits(db: Db, e: LinkEvent, p: int)
    requires 0 <= p < |db.posts|
    ensures StillWaits(db, SiteTasks.LinkOrGenerate(db.(links := db.links - multiset{e}), e.site, e.user), p)
  {
  }

  lemma RequestWaits(db: Db, user: nat, site: int, p: int)
    requires 0 <= p < |db.posts|
    ensures StillWaits(db, SiteOrders.SaveDeployOrder(db, user, site), p)
  {
  }

  lemma RepointWaits(db: Db, r: Repoint, p: int)
    requires 0 <= p < |db.posts|
    ensures StillWaits(db, SiteOrders.EndRetry(db, r), p)
  {
  }

  lemma RetryWaits(db: Db, user: nat, q: int, p: int)
    requires 0 <= p < |db.posts|
    ensures var r := PostOrders.RetryPost(db, user, q); r.Retried? ==> StillWaits(db, r.db, p)
  {
  }

  lemma OutsideWaits(s: State, a: OutsideAction, p: int)
    requires OutsideEnabled(s, a) && 0 <= p < |s.db.posts| && p !in Hit(s, Outside(a))
    ensures StillWaits(s.db, OutsideNext(s, a).db, p)
  {
    hide SiteOrders.SaveDeployOrder, SiteOrders.GeneratePublishOrder, SiteTasks.LinkOrGenerate, SiteOrders.EndRetry,
         SiteOrders.BeginRetry, PostOrders.RetryPost;
    match a
    case ARequestDeploy(user, site) => RequestWaits(s.db, user, site, p);
    case ARequestPublish(user) => GeneratedPosts(s.db, user);
    case ARetry(user, q) => RetryWaits(s.db, user, q, p);
    case ADeliverLink(e) => LinkWaits(s.db, e, p);
    case ABeginRetry(e) => RetryBegunPosts(s.db, e);
    case AEndRetry(r) => RepointWaits(s.db, r, p);
    case _ =>
  }

  lemma EndWaits(db: Db, j: Job, t: int, order: int, p: int)
    requires 0 <= p < |db.posts|
    ensures StillWaits(db, FailTask(db, j), p)
    ensures StillWaits(db, PostTasks.FinishTask(db, t, order), p)
    ensures StillWaits(db, SiteTasks.FinishPublish(db, t), p)
  {
  }

  lemma WorkerWaits(s: State, a: WorkerAction, p: int)
    requires WorkerEnabled(s, a) && 0 <= p < |s.db.posts| && p !in Hit(s, Worker(a))
    ensures StillWaits(s.db, WorkerNext(s, a).db, p)
  {
    hide SiteOrders.GeneratePublishOrder, FailTask, PostTasks.FinishTask, SiteTasks.FinishDeploy,
         SiteTasks.FinishPublish, WorkerNext;
    WorkerDb(s, a);
    match a
    case ACompleteDeploy(u) => DeployedBatch(s.db, u);
    case AOrderFirstPublish(u) => GeneratedPosts(s.db, s.db.deployTasks[u].user);
    case ACompletePosts(u) => GeneratedPosts(s.db, s.db.postTasks[u].user);
    case AFinishPosts(u) => EndWaits(s.db, Job(PostJob, u), u, s.closing[u], p);
    case ACompletePublish(u) => EndWaits(s.db, Job(PublishJob, u), u, NONE, p);
    case AFailJob(j) => EndWaits(s.db, j, NONE, NONE, p);
    case _ =>
  }

  lemma StepWaits(s: State, a: Action, p: int)
    requires Enabled(s, a) && !a.Dispatcher? && 0 <= p < |s.db.posts| && p !in Hit(s, a)
    ensures StillWaits(s.db, Next(s, a).db, p)
  {
    hide OutsideEnabled, OutsideNext, WorkerEnabled, WorkerNext, Hit;
    match a
    case Outside(o) => OutsideWaits(s, o, p);
    case Worker(w) => WorkerWaits(s, w, p);
  }

  lemma {:induction false} MeanwhileWaits(s: State, actions: seq<Action>, p: int)
    requires IsRun(s, actions) && Meanwhile(actions) && 0 <= p < |s.db.posts| && p !in Hits(s, actions)
    ensures StillWaits(s.db, After(s, actions).db, p)
    decreases |actions|
  {
    if actions != [] {
      hide Enabled, Next, Hit;
      StepWaits(s, actions[0], p);
      MeanwhileRest(actions);
      MeanwhileWaits(Next(s, actions[0]), actions[1..], p);
    }
  }

  /** The post that was chosen is in the batch it triggers, unless it is hit before the sweep. */
  lemma ChosenIsSwept(s: State, p: int, actions: seq<Action>, s': State)
    requires Reachable(s) && DispatcherEnabled(s, APickPost(p)) && PickPost(s, p).phase == Chosen(Submit(p))
    requires IsRun(PickPost(s, p), actions) && Meanwhile(actions) && p !in Hits(PickPost(s, p), actions)
    requires s' == After(PickPost(s, p), actions)
    ensures 0 <= p < |s.db.posts|
    ensures p in Waiting(s'.db.posts, s.db.posts[p].user)
    ensures p in Stamped(PostTasks.Generate(s'.db, s.db.posts[p].user).posts, |s'.db.postTasks|)
  {
    hide Reachable, Inv, PostInv, PickPost, Waiting, Stamped, PostTasks.Generate, IsRun, After, Meanwhile, Hits, FirstPost;
    ReachableInv(s);
    PickedPost(s, p);
    MeanwhileWaits(PickPost(s, p), actions, p);
    RunInv(PickPost(s, p), actions);
    PostRows(s');
    StillWaiting(s.db, s'.db, p);
    SweepTakesWaiting(s'.db, s.db.posts[p].user);
  }

  lemma PickedPost(s: State, p: int)
    requires Inv(s) && DispatcherEnabled(s, APickPost(p)) && PickPost(s, p).phase == Chosen(Submit(p))
    ensures Inv(PickPost(s, p)) && PickPost(s, p).db == s.db
    ensures 0 <= p < |s.db.posts| && s.db.posts[p].submit == Pending
  {
    PickPostKeepsInv(s, p);
    assert PostEligible(s.db, p);
    hide Inv;
  }

  lemma PickPostKeepsInv(s: State, p: int)
    requires Inv(s) && DispatcherEnabled(s, APickPost(p))
    ensures Inv(PickPost(s, p))
  {
    hide Inv, PickPost, FirstPost;
    StepInv(s, Dispatcher(APickPost(p)));
  }

  lemma StillWaiting(a: Db, b: Db, p: int)
    requires 0 <= p < |a.posts| && a.posts[p].submit == Pending && StillWaits(a, b, p)
    ensures p in Waiting(b.posts, a.posts[p].user)
  {
  }
}

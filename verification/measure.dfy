/** Without new requests the pipeline drains: every step that moves an order or a task uses up work. */
module Measure {
  import opened PipelineTypes
  import opened Tables
  import opened Pipeline
  import opened Invariants
  import opened Runs
  import opened Batches
  import opened Theorems
  import StepKeeps
  import History
  import PublishKeeps
  import PostTasks
  import SiteOrders
  import SiteTasks

  // ---- what is left to do ----

  function PendingDeploys(orders: seq<DeployOrder>): set<int> {
    set i | 0 <= i < |orders| && orders[i].state == Pending
  }

  function RunningDeploys(tasks: seq<DeployTask>): set<int> {
    set t | 0 <= t < |tasks| && tasks[t].state == Doing
  }

  function PendingPosts(posts: seq<PostOrder>): set<int> {
    set i | 0 <= i < |posts| && posts[i].submit == Pending
  }

  function RunningPosts(tasks: seq<PostTask>): set<int> {
    set t | 0 <= t < |tasks| && tasks[t].state == Doing
  }

  function PendingPublishes(orders: seq<PublishOrder>): set<int> {
    set i | 0 <= i < |orders| && orders[i].state == Pending
  }

  function RunningPublishes(tasks: seq<PublishTask>): set<int> {
    set t | 0 <= t < |tasks| && tasks[t].state == Doing
  }

  /** The waiting posts of the batch that the dispatcher is about to mark. */
  function BatchLeft(phase: Phase, posts: seq<PostOrder>): set<int> {
    match phase
    case Chosen(Submit(p)) => if 0 <= p < |posts| then Waiting(posts, posts[p].user) else {}
    case Swept(t) => Stamped(posts, t) * PendingPosts(posts)
    case _ => {}
  }

  /** A batch whose posts were all hit before the marking still becomes a task. */
  function Credit(phase: Phase, posts: seq<PostOrder>): nat {
    if (phase.Swept? || (phase.Chosen? && phase.choice.Submit?)) && BatchLeft(phase, posts) == {} then 5 else 0
  }

  /** The work left: a pending order outweighs its task, and a task outweighs the publish order that
      its completion creates. */
  function Work(s: State): nat {
    5 * |PendingDeploys(s.db.deployOrders)| + 4 * |RunningDeploys(s.db.deployTasks)| + 3 * |s.deployed| +
    6 * |PendingPosts(s.db.posts)| + Credit(s.phase, s.db.posts) +
    4 * |RunningPosts(s.db.postTasks) - s.closing.Keys| + |s.closing.Keys| +
    2 * |PendingPublishes(s.db.publishOrders)| + |RunningPublishes(s.db.publishTasks)| + 3 * |s.db.retries|
  }

  // ---- sizes ----

  lemma {:induction false} SmallerSet(a: set<int>, b: set<int>)
    requires a <= b
    ensures |a| <= |b|
    ensures a != b ==> |a| < |b|
  {
    assert b == a + (b - a);
    assert |b| == |a| + |b - a|;
    if b - a == {} {
      assert b <= a;
    }
  }

  // ---- steps that only use up work ----

  /** Nothing becomes PENDING or DOING, posts keep their users and tasks. */
  predicate Winds(a: Db, b: Db) {
    |b.posts| == |a.posts| && |b.deployOrders| == |a.deployOrders| && b.deployTasks == a.deployTasks &&
    |b.postTasks| == |a.postTasks| && |b.publishOrders| == |a.publishOrders| && |a.publishTasks| <= |b.publishTasks| &&
    (forall i :: 0 <= i < |a.posts| ==>
      b.posts[i].user == a.posts[i].user && b.posts[i].postTask == a.posts[i].postTask &&
      (b.posts[i].submit == Pending ==> a.posts[i].submit == Pending)) &&
    (forall i :: 0 <= i < |a.deployOrders| ==> b.deployOrders[i] == a.deployOrders[i]) &&
    (forall t :: 0 <= t < |a.postTasks| ==> b.postTasks[t].state == a.postTasks[t].state) &&
    (forall i :: 0 <= i < |a.publishOrders| ==> b.publishOrders[i].state == a.publishOrders[i].state) &&
    (forall t :: 0 <= t < |a.publishTasks| ==> b.publishTasks[t] == a.publishTasks[t]) &&
    (forall t :: |a.publishTasks| <= t < |b.publishTasks| ==> b.publishTasks[t].state != Doing) &&
    b.retries == a.retries
  }

  lemma WindsSets(a: Db, b: Db)
    requires Winds(a, b)
    ensures PendingDeploys(b.deployOrders) == PendingDeploys(a.deployOrders)
    ensures RunningDeploys(b.deployTasks) == RunningDeploys(a.deployTasks)
    ensures PendingPosts(b.posts) <= PendingPosts(a.posts) && RunningPosts(b.postTasks) == RunningPosts(a.postTasks)
    ensures PendingPublishes(b.publishOrders) == PendingPublishes(a.publishOrders)
    ensures RunningPublishes(b.publishTasks) == RunningPublishes(a.publishTasks)
  {
  }

  /** The last waiting post of a batch is hit: that pays for the credit. */
  lemma CreditPaid(phase: Phase, a: Db, b: Db)
    requires Winds(a, b)
    ensures Credit(phase, b.posts) > Credit(phase, a.posts) ==> PendingPosts(b.posts) != PendingPosts(a.posts)
  {
    if PendingPosts(b.posts) == PendingPosts(a.posts) {
      forall i | i in BatchLeft(phase, a.posts) ensures i in BatchLeft(phase, b.posts) {
        assert i in PendingPosts(a.posts);
      }
    }
  }

  lemma WindsWork(s: State, db: Db)
    requires Winds(s.db, db)
    ensures Work(s.(db := db)) <= Work(s)
  {
    WindsSets(s.db, db);
    WindsShare(s.phase, s.db, db);
    hide Winds, PendingDeploys, RunningDeploys, PendingPosts, RunningPosts, PendingPublishes, RunningPublishes, Credit;
  }

  // ---- which actions belong to a drain, and which of them move work ----

  /** No new site, post, publish request, deploy request or retry. */
  predicate NoRequest(a: Action) {
    match a
    case Outside(o) => !(o.ACreateSite? || o.ASavePost? || o.ARequestDeploy? || o.ARequestPublish? || o.ARetry?)
    case _ => true
  }

  /** The steps that start, finish, fail or follow up a task, or take up a retry. */
  predicate Effective(s: State, a: Action) {
    match a
    case Outside(ABeginRetry(_)) => true
    case Outside(_) => false
    case Dispatcher(AStartDeploy) => s.phase.Chosen? && s.phase.choice.Deploy?
    case Dispatcher(AMarkPosts) => true
    case Dispatcher(AMarkPublish) => true
    case Dispatcher(AAbandon) => true
    case Dispatcher(_) => false
    case Worker(AStartJob(_)) => false
    case Worker(AReport(_, _)) => false
    case Worker(_) => true
  }

  function Cost(s: State, a: Action): nat {
    if Effective(s, a) then 1 else 0
  }

  // ---- users, uploads and handlers ----

  lemma PostRowWinds(db: Db, p: int, row: PostOrder)
    requires 0 <= p < |db.posts| && row.user == db.posts[p].user && row.postTask == db.posts[p].postTask
    requires row.submit == Pending ==> db.posts[p].submit == Pending
    ensures Winds(db, db.(posts := db.posts[p := row]))
  {
  }

  lemma LinkWinds(db: Db, e: LinkEvent)
    requires PublishInv(db.sites, db.publishOrders, db.publishTasks)
    requires e.site < |db.sites| && db.sites[e.site].user == e.user
    ensures Winds(db, SiteTasks.LinkOrGenerate(db.(links := db.links - multiset{e}), e.site, e.user))
  {
    hide PublishInv, Winds, SiteTasks.LinkOrGenerate;
    var taken := db.(links := db.links - multiset{e});
    DirectLinkWinds(taken, e.site, e.user);
    WindsAlike(taken, db, SiteTasks.LinkOrGenerate(taken, e.site, e.user));
  }

  lemma WindsAlike(a: Db, b: Db, c: Db)
    requires Winds(a, c) && b == a.(links := b.links)
    ensures Winds(b, c)
  {
  }

  lemma RepointWinds(db: Db, r: Repoint)
    ensures Winds(db, SiteOrders.EndRetry(db, r))
  {
  }

  /** A new PENDING publish order at most. */
  lemma GeneratedWork(s: State, user: nat)
    ensures Work(s.(db := SiteOrders.GeneratePublishOrder(s.db, user).db)) <= Work(s) + 2
  {
    var db' := SiteOrders.GeneratePublishOrder(s.db, user).db;
    var added := |s.db.publishOrders|;
    assert forall i :: 0 <= i < added ==> db'.publishOrders[i] == s.db.publishOrders[i];
    assert PendingPublishes(db'.publishOrders) <= PendingPublishes(s.db.publishOrders) + {added};
    SmallerSet(PendingPublishes(db'.publishOrders), PendingPublishes(s.db.publishOrders) + {added});
  }

  lemma RetryTaken(s: State, e: RetryEvent)
    requires e in s.db.retries
    ensures Work(s.(db := s.db.(retries := s.db.retries - multiset{e}))) == Work(s) - 3
  {
    var db' := s.db.(retries := s.db.retries - multiset{e});
  }

  lemma RepointAdded(s: State, repoints: multiset<Repoint>)
    ensures Work(s.(db := s.db.(repoints := repoints))) == Work(s)
  {
    var db' := s.db.(repoints := repoints);
  }

  lemma BeginRetryWork(s: State, e: RetryEvent)
    requires e in s.db.retries
    ensures Work(s.(db := SiteOrders.BeginRetry(s.db, e))) + 1 <= Work(s)
  {
    hide Work, SiteOrders.GeneratePublishOrder;
    var taken := s.(db := s.db.(retries := s.db.retries - multiset{e}));
    RetryTaken(s, e);
    GeneratedWork(taken, e.user);
    var g := SiteOrders.GeneratePublishOrder(taken.db, e.user);
    RepointAdded(s.(db := g.db), SiteOrders.BeginRetry(s.db, e).repoints);
  }

  lemma TickWinds(db: Db)
    ensures Winds(db, db.(clock := db.clock + 1))
  {
  }

  lemma OutsideWork(s: State, a: OutsideAction)
    requires Inv(s) && OutsideEnabled(s, a) && NoRequest(Outside(a))
    ensures Work(OutsideNext(s, a)) + Cost(s, Outside(a)) <= Work(s)
  {
    History.Parts(s);
    hide Inv, Work, Winds, PublishInv, SiteTasks.LinkOrGenerate, SiteOrders.EndRetry, SiteOrders.BeginRetry;
    match a
    case ATick => TickWinds(s.db); WindsWork(s, s.db.(clock := s.db.clock + 1));
    case ABeginCertificate(p) => PostRowWinds(s.db, p, OutsideNext(s, a).db.posts[p]); WindsWork(s, OutsideNext(s, a).db);
    case AStoreCertificate(p) => PostRowWinds(s.db, p, OutsideNext(s, a).db.posts[p]); WindsWork(s, OutsideNext(s, a).db);
    case ALoseCertificate(p) => PostRowWinds(s.db, p, OutsideNext(s, a).db.posts[p]); WindsWork(s, OutsideNext(s, a).db);
    case ADeliverLink(e) => LinkWinds(s.db, e); WindsWork(s, OutsideNext(s, a).db);
    case ABeginRetry(e) => BeginRetryWork(s, e);
    case AEndRetry(r) => RepointWinds(s.db, r); WindsWork(s, OutsideNext(s, a).db);
  }

  // ---- jobs ----

  /** The rows that the end of a deployment touches. */
  lemma DeployEnds(db: Db, t: int, state: TaskState, status: SiteStatus)
    requires 0 <= t < |db.deployTasks| && db.deployTasks[t].state == Doing && state in {Finished, Failed}
    ensures var db' := SiteTasks.CloseDeploy(db, t, state, status);
            db' == db.(sites := db'.sites, deployOrders := db'.deployOrders, deployTasks := db'.deployTasks) &&
            PendingDeploys(db'.deployOrders) <= PendingDeploys(db.deployOrders) &&
            t in RunningDeploys(db.deployTasks) &&
            RunningDeploys(db'.deployTasks) == RunningDeploys(db.deployTasks) - {t}
  {
  }

  lemma PostsEnd(db: Db, t: int, o: int)
    requires 0 <= t < |db.postTasks| && db.postTasks[t].state == Doing
    ensures var finished := PostTasks.FinishTask(db, t, o);
            var failed := PostTasks.FailTask(db, t);
            finished == db.(posts := finished.posts, postTasks := finished.postTasks) &&
            failed == db.(posts := failed.posts, postTasks := failed.postTasks) &&
            t in RunningPosts(db.postTasks) &&
            RunningPosts(finished.postTasks) == RunningPosts(failed.postTasks) == RunningPosts(db.postTasks) - {t}
  {
  }

  lemma PostsEndWinds(db: Db, t: int, o: int)
    ensures Winds(db.(postTasks := []), PostTasks.FinishTask(db, t, o).(postTasks := []))
    ensures Winds(db.(postTasks := []), PostTasks.FailTask(db, t).(postTasks := []))
  {
  }

  lemma PublishEnds(db: Db, t: int, state: TaskState, status: SiteStatus)
    requires 0 <= t < |db.publishTasks| && db.publishTasks[t].state == Doing && state in {Finished, Failed}
    ensures var db' := SiteTasks.MovePublish(db, t, state, status);
            db' == db.(sites := db'.sites, publishOrders := db'.publishOrders, publishTasks := db'.publishTasks,
                       posts := db'.posts) &&
            PendingPublishes(db'.publishOrders) <= PendingPublishes(db.publishOrders) &&
            t in RunningPublishes(db.publishTasks) &&
            RunningPublishes(db'.publishTasks) == RunningPublishes(db.publishTasks) - {t}
  {
  }

  /** Only the publish state of posts changes: the waiting posts and the batch are the same. */
  lemma PublishMovesPosts(db: Db, t: int, state: TaskState, status: SiteStatus, phase: Phase)
    ensures var db' := SiteTasks.MovePublish(db, t, state, status);
            PendingPosts(db'.posts) == PendingPosts(db.posts) && Credit(phase, db'.posts) == Credit(phase, db.posts)
  {
    var db' := SiteTasks.MovePublish(db, t, state, status);
    assert BatchLeft(phase, db'.posts) == BatchLeft(phase, db.posts);
  }

  /** What the waiting posts and the credit contribute to the work. */
  function PostShare(phase: Phase, posts: seq<PostOrder>): nat {
    6 * |PendingPosts(posts)| + Credit(phase, posts)
  }

  lemma PostsEndShare(db: Db, t: int, o: int, phase: Phase)
    ensures PostShare(phase, PostTasks.FinishTask(db, t, o).posts) <= PostShare(phase, db.posts)
    ensures PostShare(phase, PostTasks.FailTask(db, t).posts) <= PostShare(phase, db.posts)
  {
    PostsEndWinds(db, t, o);
    WindsShare(phase, db.(postTasks := []), PostTasks.FinishTask(db, t, o).(postTasks := []));
    WindsShare(phase, db.(postTasks := []), PostTasks.FailTask(db, t).(postTasks := []));
  }

  lemma WindsShare(phase: Phase, a: Db, b: Db)
    requires Winds(a, b)
    ensures PostShare(phase, b.posts) <= PostShare(phase, a.posts)
  {
    CreditPaid(phase, a, b);
    WindsSets(a, b);
    SmallerSet(PendingPosts(b.posts), PendingPosts(a.posts));
  }

  lemma RemoveOne(s: set<int>, x: int)
    requires x in s
    ensures |s - {x}| == |s| - 1
  {
  }

  lemma AddOne(s: set<int>, x: int)
    ensures |s + {x}| <= |s| + 1
  {
  }

  /** The failure of a running task that is not being closed. */
  lemma FailWork(s: State, j: Job)
    requires TaskDoing(s.db, j) && (j.kind == PostJob ==> j.task !in s.closing)
    ensures Work(s.(db := FailTask(s.db, j))) + 1 <= Work(s)
  {
    var db' := FailTask(s.db, j);
    hide PendingDeploys, RunningDeploys, PendingPosts, RunningPosts, PendingPublishes, RunningPublishes, Credit;
    match j.kind
    case DeployJob =>
      DeployEnds(s.db, j.task, Failed, DeployFailed);
      SmallerSet(PendingDeploys(db'.deployOrders), PendingDeploys(s.db.deployOrders));
      RemoveOne(RunningDeploys(s.db.deployTasks), j.task);
    case PostJob =>
      PostsEnd(s.db, j.task, NONE);
      PostsEndShare(s.db, j.task, NONE, s.phase);
      RemoveOne(RunningPosts(s.db.postTasks) - s.closing.Keys, j.task);
      assert RunningPosts(s.db.postTasks) - {j.task} - s.closing.Keys ==
        RunningPosts(s.db.postTasks) - s.closing.Keys - {j.task};
    case PublishJob =>
      PublishEnds(s.db, j.task, Failed, PublishFailed);
      PublishMovesPosts(s.db, j.task, Failed, PublishFailed, s.phase);
      SmallerSet(PendingPublishes(db'.publishOrders), PendingPublishes(s.db.publishOrders));
      RemoveOne(RunningPublishes(s.db.publishTasks), j.task);
  }

  lemma CompleteDeployWork(s: State, t: int)
    requires TaskDoing(s.db, Job(DeployJob, t))
    ensures Work(CompleteDeploy(s, t)) + 1 <= Work(s)
  {
    var db' := SiteTasks.FinishDeploy(s.db, t);
    hide PendingDeploys, RunningDeploys, PendingPosts, RunningPosts, PendingPublishes, RunningPublishes, Credit;
    DeployEnds(s.db, t, Finished, Deployed);
    SmallerSet(PendingDeploys(db'.deployOrders), PendingDeploys(s.db.deployOrders));
    RemoveOne(RunningDeploys(s.db.deployTasks), t);
    AddOne(s.deployed, t);
  }

  lemma OrderFirstPublishWork(s: State, t: int)
    requires t in s.deployed && 0 <= t < |s.db.deployTasks|
    ensures Work(OrderFirstPublish(s, t)) + 1 <= Work(s)
  {
    hide SiteOrders.GeneratePublishOrder;
    hide PendingDeploys, RunningDeploys, PendingPosts, RunningPosts, PendingPublishes, RunningPublishes, Credit;
    GeneratedWork(s.(deployed := s.deployed - {t}), s.db.deployTasks[t].user);
    RemoveOne(s.deployed, t);
  }

  lemma CompletePostsWork(s: State, t: int)
    requires WorkerEnabled(s, ACompletePosts(t)) && TaskDoing(s.db, Job(PostJob, t)) && t !in s.closing
    requires DefaultSite(s.db.sites, s.db.postTasks[t].user) != NONE
    ensures Work(CompletePosts(s, t)) + 1 <= Work(s)
  {
    var g := SiteOrders.GeneratePublishOrder(s.db, s.db.postTasks[t].user);
    GeneratedWork(s, s.db.postTasks[t].user);
    assert g.order != NONE && g.db.postTasks == s.db.postTasks;
    ClosingWork(s.(db := g.db), t, g.order, s.active - multiset{Job(PostJob, t)});
    hide Work, SiteOrders.GeneratePublishOrder;
  }

  /** A completed task weighs less while it is being closed. */
  lemma ClosingWork(s: State, t: int, o: int, active: multiset<Job>)
    requires TaskDoing(s.db, Job(PostJob, t)) && t !in s.closing
    ensures Work(s.(closing := s.closing[t := o], active := active)) + 3 == Work(s)
  {
    var keys' := s.closing[t := o].Keys;
    var running := RunningPosts(s.db.postTasks);
    assert t in running;
    assert keys' == s.closing.Keys + {t};
    assert running - keys' == running - s.closing.Keys - {t};
    RemoveOne(running - s.closing.Keys, t);
  }

  lemma FinishPostsWork(s: State, t: int)
    requires t in s.closing && TaskDoing(s.db, Job(PostJob, t))
    ensures Work(FinishPosts(s, t)) + 1 <= Work(s)
  {
    hide PendingDeploys, RunningDeploys, PendingPosts, RunningPosts, PendingPublishes, RunningPublishes, Credit;
    PostsEnd(s.db, t, s.closing[t]);
    PostsEndShare(s.db, t, s.closing[t], s.phase);
    var keys' := (s.closing - {t}).Keys;
    assert keys' == s.closing.Keys - {t};
    RemoveOne(s.closing.Keys, t);
    assert RunningPosts(s.db.postTasks) - {t} - keys' == RunningPosts(s.db.postTasks) - s.closing.Keys;
  }

  lemma CompletePublishWork(s: State, t: int)
    requires TaskDoing(s.db, Job(PublishJob, t))
    ensures Work(CompletePublish(s, t)) + 1 <= Work(s)
  {
    var db' := SiteTasks.FinishPublish(s.db, t);
    hide PendingDeploys, RunningDeploys, PendingPosts, RunningPosts, PendingPublishes, RunningPublishes, Credit;
    PublishEnds(s.db, t, Finished, Published);
    PublishMovesPosts(s.db, t, Finished, Published, s.phase);
    SmallerSet(PendingPublishes(db'.publishOrders), PendingPublishes(s.db.publishOrders));
    RemoveOne(RunningPublishes(s.db.publishTasks), t);
  }

  /** An active post job is not being closed, and its user has a site. */
  lemma ActivePosts(s: State, t: int)
    requires Inv(s) && Job(PostJob, t) in s.active
    ensures t !in s.closing && TaskDoing(s.db, Job(PostJob, t))
    ensures DefaultSite(s.db.sites, s.db.postTasks[t].user) != NONE
  {
    StepKeeps.InFlight(s, Job(PostJob, t));
    StepKeeps.UserHasSite(s, t);
    assert Lives(s, Job(PostJob, t)) == 1;
  }

  lemma WorkerWork(s: State, a: WorkerAction)
    requires Inv(s) && WorkerEnabled(s, a)
    ensures Work(WorkerNext(s, a)) + Cost(s, Worker(a)) <= Work(s)
  {
    hide Inv, Work, Winds, CompleteDeploy, OrderFirstPublish, CompletePosts, FinishPosts, CompletePublish, FailTask;
    match a
    case AStartJob(j) => SameWork(s, s.waiting - multiset{j}, s.active + multiset{j});
    case AReport(_, p) =>
      PostRowWinds(s.db, p, WorkerNext(s, a).db.posts[p]);
      WindsWork(s, WorkerNext(s, a).db);
    case ACompleteDeploy(t) => StepKeeps.InFlight(s, Job(DeployJob, t)); CompleteDeployWork(s, t);
    case AOrderFirstPublish(t) => OrderFirstPublishWork(s, t);
    case ACompletePosts(t) => ActivePosts(s, t); CompletePostsWork(s, t);
    case AFinishPosts(t) => StepKeeps.InFlight(s, Job(PostJob, t)); FinishPostsWork(s, t);
    case ACompletePublish(t) => StepKeeps.InFlight(s, Job(PublishJob, t)); CompletePublishWork(s, t);
    case AFailJob(j) =>
      StepKeeps.InFlight(s, j);
      if j.kind == PostJob { ActivePosts(s, j.task); }
      FailWork(s, j);
      SameWork(s.(db := FailTask(s.db, j)), s.waiting, s.active - multiset{j});
  }

  lemma SameWork(s: State, waiting: multiset<Job>, active: multiset<Job>)
    ensures Work(s.(waiting := waiting, active := active)) == Work(s)
  {
  }

  // ---- the dispatcher ----

  /** Leaving a phase, or entering one that has a batch left or none at all. */
  lemma PhaseWork(s: State, phase: Phase)
    requires Credit(phase, s.db.posts) == 0
    ensures Work(s.(phase := phase)) <= Work(s)
  {
    hide PendingDeploys, RunningDeploys, PendingPosts, RunningPosts, PendingPublishes, RunningPublishes;
  }

  lemma ChosenPending(s: State)
    requires Inv(s) && DispatcherEnabled(s, AStartDeploy)
    ensures s.db.deployOrders[s.phase.choice.d].state == Pending
  {
  }

  lemma StartDeploySets(db: Db, d: int)
    requires 0 <= d < |db.deployOrders| && db.deployOrders[d].state == Pending
    ensures var o := db.deployOrders[d];
            var db' := SiteTasks.StartDeploy(db, d, o.site, o.user);
            d in PendingDeploys(db.deployOrders) &&
            PendingDeploys(db'.deployOrders) <= PendingDeploys(db.deployOrders) - {d} &&
            RunningDeploys(db'.deployTasks) == RunningDeploys(db.deployTasks) + {|db.deployTasks|} &&
            db' == db.(sites := db'.sites, deployOrders := db'.deployOrders, deployTasks := db'.deployTasks)
  {
  }

  lemma StartedWork(s: State, d: int, phase: Phase)
    requires 0 <= d < |s.db.deployOrders| && s.db.deployOrders[d].state == Pending && phase.Marked?
    ensures var o := s.db.deployOrders[d];
            Work(s.(db := SiteTasks.StartDeploy(s.db, d, o.site, o.user), phase := phase)) + 1 <= Work(s)
  {
    hide PendingDeploys, RunningDeploys, PendingPosts, RunningPosts, PendingPublishes, RunningPublishes;
    var o := s.db.deployOrders[d];
    var db' := SiteTasks.StartDeploy(s.db, d, o.site, o.user);
    StartDeploySets(s.db, d);
    SmallerSet(PendingDeploys(db'.deployOrders), PendingDeploys(s.db.deployOrders) - {d});
    RemoveOne(PendingDeploys(s.db.deployOrders), d);
    AddOne(RunningDeploys(s.db.deployTasks), |s.db.deployTasks|);
  }

  lemma StartDeployWork(s: State)
    requires Inv(s) && DispatcherEnabled(s, AStartDeploy)
    ensures Work(StartDeploy(s)) + 1 <= Work(s)
  {
    hide Inv, Work, StartDeploy;
    ChosenPending(s);
    StepKeeps.StartDeployDb(s);
    StartedWork(s, s.phase.choice.d, Marked(Job(DeployJob, |s.db.deployTasks|)));
  }

  /** The sweep turns the user's waiting posts into the batch. */
  lemma SweepShare(db: Db, p: int)
    requires PostInv(db.publishOrders, db.publishTasks, db.posts, db.postTasks) && 0 <= p < |db.posts|
    ensures var db' := PostTasks.Generate(db, db.posts[p].user);
            Credit(Swept(|db.postTasks|), db'.posts) == Credit(Chosen(Submit(p)), db.posts) &&
            PendingPosts(db'.posts) == PendingPosts(db.posts) &&
            RunningPosts(db'.postTasks) == RunningPosts(db.postTasks)
  {
    var user := db.posts[p].user;
    var db' := PostTasks.Generate(db, user);
    SweepTakesWaiting(db, user);
    assert PendingPosts(db'.posts) == PendingPosts(db.posts);
    assert Waiting(db.posts, user) <= PendingPosts(db.posts);
    assert BatchLeft(Swept(|db.postTasks|), db'.posts) == BatchLeft(Chosen(Submit(p)), db.posts);
  }

  lemma SweepWork(s: State)
    requires Inv(s) && DispatcherEnabled(s, ASweep)
    ensures Work(Sweep(s)) <= Work(s)
  {
    hide Inv, Work, PostInv, PostTasks.Generate;
    HasPostInv(s);
    PhaseWork(s, Idle);
    SweptWork(s, s.phase.choice.p);
  }

  lemma HasPostInv(s: State)
    requires Inv(s)
    ensures PostInv(s.db.publishOrders, s.db.publishTasks, s.db.posts, s.db.postTasks)
  {
  }

  lemma SweptWork(s: State, p: int)
    requires PostInv(s.db.publishOrders, s.db.publishTasks, s.db.posts, s.db.postTasks)
    requires s.phase == Chosen(Submit(p)) && 0 <= p < |s.db.posts|
    ensures Work(s.(db := PostTasks.Generate(s.db, s.db.posts[p].user), phase := Swept(|s.db.postTasks|))) == Work(s)
  {
    SweepShare(s.db, p);
    hide Credit, PendingDeploys, RunningDeploys, PendingPosts, RunningPosts, PendingPublishes, RunningPublishes;
  }

  /** Marking a batch that has waiting posts takes them off the work, one without uses the credit. */
  lemma MarkPostsShare(db: Db, t: int)
    requires 0 <= t < |db.postTasks|
    ensures var db' := PostTasks.DoingTask(db, t);
            PostShare(Marked(Job(PostJob, t)), db'.posts) + 5 <= PostShare(Swept(t), db.posts) &&
            RunningPosts(db'.postTasks) == RunningPosts(db.postTasks) + {t}
  {
    MarkedSets(db, t);
    hide PostTasks.DoingTask, PendingPosts, Stamped;
    var db' := PostTasks.DoingTask(db, t);
    var left := BatchLeft(Swept(t), db.posts);
    if left != {} {
      var i :| i in left;
      RemoveOne(PendingPosts(db.posts), i);
      SmallerSet(PendingPosts(db'.posts), PendingPosts(db.posts) - {i});
    }
  }

  lemma MarkedSets(db: Db, t: int)
    requires 0 <= t < |db.postTasks|
    ensures var db' := PostTasks.DoingTask(db, t);
            PendingPosts(db'.posts) == PendingPosts(db.posts) - BatchLeft(Swept(t), db.posts) &&
            RunningPosts(db'.postTasks) == RunningPosts(db.postTasks) + {t}
  {
  }

  lemma MarkPostsWork(s: State)
    requires Inv(s) && s.phase.Swept?
    ensures Work(MarkPosts(s)) + 1 <= Work(s)
  {
    var t := s.phase.postTask;
    assert 0 <= t < |s.db.postTasks| && s.db.postTasks[t].state == Pending;
    StepKeeps.NotClosing(s, t);
    hide Inv, PendingDeploys, RunningDeploys, PendingPosts, RunningPosts, PendingPublishes, RunningPublishes, Credit;
    MarkPostsShare(s.db, t);
    var running := RunningPosts(s.db.postTasks);
    assert running + {t} - s.closing.Keys == (running - s.closing.Keys) + {t};
    AddOne(running - s.closing.Keys, t);
  }

  lemma LinkWork(s: State)
    requires Inv(s) && DispatcherEnabled(s, ALinkForPublish)
    ensures Work(LinkForPublish(s)) <= Work(s)
  {
    hide Inv, Work, Winds, PublishInv, SiteTasks.LinkOrGenerate, DispatcherEnabled, Credit;
    HasChoice(s);
    StepKeeps.ChosenSite(s, s.phase.choice.o);
    var order := s.db.publishOrders[s.phase.choice.o];
    NoCredit(s.db.posts, s.phase.choice.o);
    PhaseWork(s, Idle);
    PhaseWork(s, Linked(s.phase.choice.o));
    DirectLinkWinds(s.db, order.site, order.user);
    WindsWork(s.(phase := Linked(s.phase.choice.o)), SiteTasks.LinkOrGenerate(s.db, order.site, order.user));
  }

  lemma HasChoice(s: State)
    requires DispatcherEnabled(s, ALinkForPublish)
    ensures s.phase.Chosen? && s.phase.choice.Publish? && 0 <= s.phase.choice.o < |s.db.publishOrders|
  {
  }

  lemma NoCredit(posts: seq<PostOrder>, o: int)
    ensures Credit(Idle, posts) == Credit(Linked(o), posts) == 0
  {
  }

  lemma DirectLinkWinds(db: Db, site: nat, user: nat)
    requires PublishInv(db.sites, db.publishOrders, db.publishTasks)
    requires site < |db.sites| && db.sites[site].user == user
    ensures Winds(db, SiteTasks.LinkOrGenerate(db, site, user))
  {
    hide PublishInv, SiteTasks.LinkOrGenerate;
    PublishKeeps.LinkedTask(db, site, user);
  }

  lemma MarkPublishSets(db: Db, o: int)
    requires 0 <= o < |db.publishOrders| && db.publishOrders[o].state == Pending
    requires 0 <= db.publishOrders[o].task < |db.publishTasks|
    ensures var t := db.publishOrders[o].task;
            var db' := SiteTasks.DoingPublish(db, t);
            o in PendingPublishes(db.publishOrders) &&
            PendingPublishes(db'.publishOrders) <= PendingPublishes(db.publishOrders) - {o} &&
            RunningPublishes(db'.publishTasks) == RunningPublishes(db.publishTasks) + {t} &&
            db' == db.(sites := db'.sites, publishOrders := db'.publishOrders, publishTasks := db'.publishTasks,
                       posts := db'.posts)
  {
  }

  lemma MarkedPublishWork(s: State, o: int, phase: Phase)
    requires 0 <= o < |s.db.publishOrders| && s.db.publishOrders[o].state == Pending
    requires 0 <= s.db.publishOrders[o].task < |s.db.publishTasks| && s.phase.Linked? && phase.Marked?
    ensures Work(s.(db := SiteTasks.DoingPublish(s.db, s.db.publishOrders[o].task), phase := phase)) + 1 <= Work(s)
  {
    hide PendingDeploys, RunningDeploys, PendingPosts, RunningPosts, PendingPublishes, RunningPublishes;
    var t := s.db.publishOrders[o].task;
    var db' := SiteTasks.DoingPublish(s.db, t);
    MarkPublishSets(s.db, o);
    PublishMovesPosts(s.db, t, Doing, Publishing, s.phase);
    SmallerSet(PendingPublishes(db'.publishOrders), PendingPublishes(s.db.publishOrders) - {o});
    RemoveOne(PendingPublishes(s.db.publishOrders), o);
    AddOne(RunningPublishes(s.db.publishTasks), t);
  }

  lemma MarkPublishIs(s: State)
    requires Inv(s) && s.phase.Linked?
    ensures var o := s.phase.order;
            0 <= o < |s.db.publishOrders| && s.db.publishOrders[o].state == Pending &&
            var t := s.db.publishOrders[o].task;
            0 <= t < |s.db.publishTasks| &&
            MarkPublish(s) == s.(db := SiteTasks.DoingPublish(s.db, t), phase := Marked(Job(PublishJob, t)))
  {
    StepKeeps.LinkedIsFound(s.db, s.phase.order);
  }

  lemma MarkPublishWork(s: State)
    requires Inv(s) && s.phase.Linked? && 0 <= s.phase.order < |s.db.publishOrders|
    ensures Work(MarkPublish(s)) + 1 <= Work(s)
  {
    hide Inv, Work, MarkPublish, SiteTasks.DoingPublish;
    MarkPublishIs(s);
    MarkedPublishWork(s, s.phase.order, Marked(Job(PublishJob, s.db.publishOrders[s.phase.order].task)));
  }

  lemma AbandonWork(s: State)
    requires Inv(s) && s.phase.Marked?
    ensures Work(Abandon(s)) + 1 <= Work(s)
  {
    hide Inv, Work, FailTask, TaskDoing;
    var j := s.phase.job;
    StepKeeps.InFlight(s, j);
    if j.kind == PostJob { HeldIsNotClosing(s); }
    FailWork(s, j);
    PhaseWork(s.(db := FailTask(s.db, j)), Idle);
  }

  lemma HeldIsNotClosing(s: State)
    requires Inv(s) && s.phase.Marked? && s.phase.job.kind == PostJob
    ensures s.phase.job.task !in s.closing
  {
    assert Lives(s, s.phase.job) <= 1;
  }

  lemma PickPostWork(s: State, p: int)
    requires DispatcherEnabled(s, APickPost(p))
    ensures Work(PickPost(s, p)) <= Work(s)
  {
    var phase := PickPost(s, p).phase;
    if phase == Chosen(Submit(p)) {
      assert p in Waiting(s.db.posts, s.db.posts[p].user);
    }
    PhaseWork(s, phase);
  }

  lemma DispatcherWork(s: State, a: DispatcherAction)
    requires Inv(s) && DispatcherEnabled(s, a)
    ensures Work(DispatcherNext(s, a)) + Cost(s, Dispatcher(a)) <= Work(s)
  {
    hide Inv, Work, FirstDeploy, FirstPublish, FirstPost, PickPost, StartDeploy, Sweep, MarkPosts, LinkForPublish,
         MarkPublish, Abandon;
    match a
    case AReadActive => PhaseWork(s, ReadActive(s).phase);
    case AReadWaiting => PhaseWork(s, ReadWaiting(s).phase);
    case APickDeploy(d) => PhaseWork(s, PickDeploy(s, d).phase);
    case APickPublish(o) => PhaseWork(s, PickPublish(s, o).phase);
    case APickPost(p) => PickPostWork(s, p);
    case AStartDeploy => StartDeployWork(s);
    case ASweep => SweepWork(s);
    case AMarkPosts => MarkPostsWork(s);
    case ALinkForPublish => LinkWork(s);
    case AMarkPublish => MarkPublishWork(s);
    case AEnqueue =>
      PhaseWork(s, Idle);
      SameWork(s.(phase := Idle), Enqueue(s).waiting, s.active);
    case AAbandon => AbandonWork(s);
  }

  // ---- runs ----

  lemma StepWork(s: State, a: Action)
    requires Inv(s) && Enabled(s, a) && NoRequest(a)
    ensures Work(Next(s, a)) + Cost(s, a) <= Work(s)
  {
    hide Inv, Work, Cost, OutsideEnabled, OutsideNext, DispatcherEnabled, DispatcherNext, WorkerEnabled, WorkerNext;
    match a
    case Outside(o) => OutsideWork(s, o);
    case Dispatcher(d) => DispatcherWork(s, d);
    case Worker(w) => WorkerWork(s, w);
  }

  /** How many steps of the run move work. */
  ghost function EffectiveSteps(s: State, actions: seq<Action>): nat
    requires IsRun(s, actions)
    decreases |actions|
  {
    if actions == [] then 0 else Cost(s, actions[0]) + EffectiveSteps(Next(s, actions[0]), actions[1..])
  }

  /** A run without new requests has at most as many effective steps as there is work at its start. */
  lemma RunsDrain(s: State, actions: seq<Action>)
    requires Reachable(s) && IsRun(s, actions) && forall a :: a in actions ==> NoRequest(a)
    ensures EffectiveSteps(s, actions) + Work(After(s, actions)) <= Work(s)
  {
    hide Reachable, Inv, Work, EffectiveSteps;
    ReachableInv(s);
    RunWork(s, actions);
  }

  lemma {:induction false} RunWork(s: State, actions: seq<Action>)
    requires Inv(s) && IsRun(s, actions) && forall a :: a in actions ==> NoRequest(a)
    ensures Work(After(s, actions)) + EffectiveSteps(s, actions) <= Work(s)
    decreases |actions|
  {
    if actions != [] {
      hide Inv, Work, Cost, Enabled, Next;
      StepInv(s, actions[0]);
      StepWork(s, actions[0]);
      RunWork(Next(s, actions[0]), actions[1..]);
    }
  }

  /** When no work is left, no order waits, no task runs, and no follow-up is owed. */
  lemma NoWorkLeft(s: State)
    requires Reachable(s) && Work(s) == 0
    ensures forall o :: o in s.db.deployOrders ==> o.state !in {Pending, Doing}
    ensures forall o :: o in s.db.publishOrders ==> o.state !in {Pending, Doing}
    ensures forall p :: p in s.db.posts ==> p.submit !in {Pending, Doing} && p.publish != Doing
    ensures s.waiting == multiset{} && s.active == multiset{} && s.closing.Keys == {} && s.deployed == {}
  {
    hide Reachable, Inv, DbInv, LivesOk, Work, TaskDoing;
    ReachableInv(s);
    NothingPending(s);
    InvParts(s);
    forall j: Job ensures !TaskDoing(s.db, j) && Lives(s, j) == 0 { HasNoLife(s, j); }
    NothingRuns(s.db);
    EmptyQueues(s);
  }

  lemma EmptyQueues(s: State)
    requires forall j: Job :: Lives(s, j) == 0
    ensures s.waiting == multiset{} && s.active == multiset{}
  {
    forall j: Job ensures s.waiting[j] == 0 && s.active[j] == 0 { assert Lives(s, j) == 0; }
  }

  lemma InvParts(s: State)
    requires Inv(s)
    ensures DbInv(s.db) && LivesOk(s)
  {
  }

  lemma NothingPending(s: State)
    requires Work(s) == 0
    ensures forall i :: 0 <= i < |s.db.deployOrders| ==> s.db.deployOrders[i].state != Pending
    ensures forall i :: 0 <= i < |s.db.publishOrders| ==> s.db.publishOrders[i].state != Pending
    ensures forall i :: 0 <= i < |s.db.posts| ==> s.db.posts[i].submit != Pending
    ensures s.closing.Keys == {} && s.deployed == {}
  {
    forall i | 0 <= i < |s.db.deployOrders| ensures s.db.deployOrders[i].state != Pending {
      assert i !in PendingDeploys(s.db.deployOrders);
    }
    forall i | 0 <= i < |s.db.publishOrders| ensures s.db.publishOrders[i].state != Pending {
      assert i !in PendingPublishes(s.db.publishOrders);
    }
    forall i | 0 <= i < |s.db.posts| ensures s.db.posts[i].submit != Pending {
      assert i !in PendingPosts(s.db.posts);
    }
  }

  lemma HasNoLife(s: State, j: Job)
    requires Work(s) == 0 && LivesOk(s)
    ensures !TaskDoing(s.db, j) && Lives(s, j) == 0
  {
    assert s.closing.Keys == {};
    assert j.task !in RunningDeploys(s.db.deployTasks);
    assert j.task !in RunningPosts(s.db.postTasks) - s.closing.Keys;
    assert j.task !in RunningPublishes(s.db.publishTasks);
  }
}

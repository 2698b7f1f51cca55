/** A publish carries everything its user's site still owes, and its end settles all that it carries. */
module Carrying {
  import opened PipelineTypes
  import opened Tables
  import opened Pipeline
  import opened Invariants
  import opened Runs
  import opened History
  import opened Batches
  import StepKeeps
  import opened StepTables
  import PublishKeeps
  import PostOrders
  import PostTasks
  import SiteOrders
  import SiteTasks

  /** The publish orders of the pair that are not published yet. */
  function Owed(orders: seq<PublishOrder>, site: nat, user: nat): set<int> {
    set i | 0 <= i < |orders| && orders[i].site == site && orders[i].user == user && Unpublished(orders[i].state)
  }

  /** The task that the next publish of the pair runs under. */
  function NextTask(db: Db, site: nat, user: nat): int {
    LatestTaskOf(PublishKeeps.WithPending(db.publishTasks, site, user), site, user)
  }

  /** linkOrGenerate puts exactly the owed orders on the task. */
  lemma LinkedOrders(db: Db, site: nat, user: nat)
    requires PublishInv(db.sites, db.publishOrders, db.publishTasks)
    requires site < |db.sites| && db.sites[site].user == user
    ensures var t := NextTask(db, site, user);
            var db' := SiteTasks.LinkOrGenerate(db, site, user);
            OrdersOfTask(db'.publishOrders, t) == Owed(db.publishOrders, site, user) == Owed(db'.publishOrders, site, user) &&
            PendingTaskOf(db'.publishTasks, site, user) == t && 0 <= t < |db'.publishTasks| &&
            db'.publishTasks[t] == PublishTask(user, site, Pending)
  {
    var t := NextTask(db, site, user);
    NextOrdersOwed(db, site, user);
    hide PublishInv, SiteTasks.LinkOrGenerate;
    PublishKeeps.LinkedTask(db, site, user);
    PublishKeeps.PendingTask(db.sites, db.publishOrders, db.publishTasks, site, user);
    OwedStamped(db.publishOrders, site, user, t);
  }

  /** The orders that are already on the next task are owed. */
  lemma NextOrdersOwed(db: Db, site: nat, user: nat)
    requires PublishInv(db.sites, db.publishOrders, db.publishTasks)
    requires site < |db.sites| && db.sites[site].user == user
    ensures OrdersOfTask(db.publishOrders, NextTask(db, site, user)) <= Owed(db.publishOrders, site, user)
  {
    var t := NextTask(db, site, user);
    PublishKeeps.PendingTask(db.sites, db.publishOrders, db.publishTasks, site, user);
    forall i | 0 <= i < |db.publishOrders| && db.publishOrders[i].task == t
      ensures i in Owed(db.publishOrders, site, user)
    {
      assert PublishOrderAgrees(db.publishTasks, db.publishOrders[i]);
    }
  }

  lemma OwedStamped(orders: seq<PublishOrder>, site: nat, user: nat, t: int)
    requires OrdersOfTask(orders, t) <= Owed(orders, site, user)
    ensures var orders' := UpdateOrders(orders, UnpublishedOfSite(user, site), SetTask(t));
            OrdersOfTask(orders', t) == Owed(orders, site, user) == Owed(orders', site, user)
  {
    var orders' := UpdateOrders(orders, UnpublishedOfSite(user, site), SetTask(t));
    forall i | i in OrdersOfTask(orders', t) ensures i in Owed(orders, site, user) {
      assert orders'[i] == orders[i] ==> i in OrdersOfTask(orders, t);
    }
  }

  /** Linking and marking a publish: every owed order runs under the one task, every unpublished post
      that points at an owed order is being published under it, and so is a post that already carried
      the task; nothing else changes. */
  lemma DispatchCarries(db: Db, site: nat, user: nat)
    requires PublishInv(db.sites, db.publishOrders, db.publishTasks)
    requires site < |db.sites| && db.sites[site].user == user
    ensures var t := NextTask(db, site, user);
            var owed := Owed(db.publishOrders, site, user);
            var db' := SiteTasks.DoingPublish(SiteTasks.LinkOrGenerate(db, site, user), t);
            |db'.publishOrders| == |db.publishOrders| && |db'.posts| == |db.posts| &&
            (forall i :: 0 <= i < |db.publishOrders| ==>
              db'.publishOrders[i] ==
              if i in owed then db.publishOrders[i].(state := Doing, task := t) else db.publishOrders[i]) &&
            (forall i :: 0 <= i < |db.posts| ==>
              db'.posts[i] ==
              if (db.posts[i].publishOrder in owed && Unpublished(db.posts[i].publish)) || db.posts[i].publishTask == t
              then db.posts[i].(publish := Doing, publishTask := t) else db.posts[i])
  {
    var t := NextTask(db, site, user);
    var db1 := SiteTasks.LinkOrGenerate(db, site, user);
    LinkedOrders(db, site, user);
    PublishKeeps.LinkedTask(db, site, user);
    hide PublishInv;
    MarkedRows(db1, t);
    assert forall i :: 0 <= i < |db.publishOrders| ==>
      (db1.publishOrders[i].task == t <==> i in OrdersOfTask(db1.publishOrders, t));
  }

  lemma MarkedRows(db: Db, t: int)
    requires 0 <= t < |db.publishTasks|
    ensures var db' := SiteTasks.DoingPublish(db, t);
            db'.publishOrders == UpdateOrders(db.publishOrders, OfTask(t), SetState(Doing)) &&
            db'.posts == UpdatePosts(db.posts, OfPublishTask(t), SetPublish(Doing))
  {
  }

  // ---- while the publish runs ----

  /** The posts that are being published under the task. */
  function Published(posts: seq<PostOrder>, t: int): set<int> {
    set i | 0 <= i < |posts| && posts[i].publishTask == t && posts[i].publish == Doing
  }

  lemma OnePost(posts: seq<PostOrder>, p: int, row: PostOrder, t: int)
    requires 0 <= p < |posts|
    requires row.publish == Doing ==> posts[p].publish == Doing && row.publishTask == posts[p].publishTask
    ensures Published(posts[p := row], t) == if row.publish == Doing then Published(posts, t) else Published(posts, t) - {p}
    ensures posts[p].publish != Doing ==> Published(posts[p := row], t) == Published(posts, t)
  {
  }

  lemma OnePostMore(a: seq<PostOrder>, b: seq<PostOrder>, t: int)
    requires |b| == |a| + 1 && b[..|a|] == a && b[|a|].publish != Doing
    ensures Published(b, t) == Published(a, t)
  {
    assert forall i :: 0 <= i < |a| ==> b[i] == b[..|a|][i];
  }

  /** The orders and running posts of task t are the same in both. */
  predicate SameLoad(a: Db, b: Db, t: int) {
    OrdersOfTask(b.publishOrders, t) == OrdersOfTask(a.publishOrders, t) && Published(b.posts, t) == Published(a.posts, t)
  }

  lemma GeneratedLoad(db: Db, user: nat, t: int)
    requires t != NONE
    ensures SameLoad(db, SiteOrders.GeneratePublishOrder(db, user).db, t)
  {
    var db' := SiteOrders.GeneratePublishOrder(db, user).db;
    assert forall i :: 0 <= i < |db.publishOrders| ==> db'.publishOrders[i] == db.publishOrders[i];
  }

  lemma SavedLoad(db: Db, user: nat, site: int, t: int)
    ensures SameLoad(db, SiteOrders.SaveDeployOrder(db, user, site), t)
  {
  }

  lemma LinkedLoad(db: Db, site: nat, user: nat, t: int)
    requires PublishInv(db.sites, db.publishOrders, db.publishTasks)
    requires site < |db.sites| && db.sites[site].user == user
    requires 0 <= t < |db.publishTasks| && db.publishTasks[t].state == Doing
    ensures SameLoad(db, SiteTasks.LinkOrGenerate(db, site, user), t)
  {
    var u := NextTask(db, site, user);
    PublishKeeps.LinkedTask(db, site, user);
    PublishKeeps.PendingTask(db.sites, db.publishOrders, db.publishTasks, site, user);
    forall i | 0 <= i < |db.publishOrders| && db.publishOrders[i].task == t ensures db.publishOrders[i].state == Doing {
      assert PublishOrderAgrees(db.publishTasks, db.publishOrders[i]);
    }
    hide PublishInv, SiteTasks.LinkOrGenerate, NextTask;
    var db' := SiteTasks.LinkOrGenerate(db, site, user);
    RestampedLoad(db, db', site, user, t, u, OrdersOfTask(db'.publishOrders, u));
  }

  lemma RestampedLoad(a: Db, b: Db, site: nat, user: nat, t: int, u: int, ids: set<int>)
    requires t != u
    requires forall i :: 0 <= i < |a.publishOrders| && a.publishOrders[i].task == t ==> a.publishOrders[i].state == Doing
    requires b.publishOrders == UpdateOrders(a.publishOrders, UnpublishedOfSite(user, site), SetTask(u))
    requires b.posts == UpdatePosts(a.posts, UnpublishedOfOrders(ids), SetPublishTask(u))
    ensures SameLoad(a, b, t)
  {
  }

  lemma RepointedLoad(db: Db, r: Repoint, t: int)
    ensures SameLoad(db, SiteOrders.EndRetry(db, r), t)
  {
  }

  lemma RetryBegunLoad(db: Db, e: RetryEvent, t: int)
    requires t != NONE
    ensures SameLoad(db, SiteOrders.BeginRetry(db, e), t)
  {
    hide SiteOrders.GeneratePublishOrder;
    GeneratedLoad(db.(retries := db.retries - multiset{e}), e.user, t);
  }

  lemma RetriedLoad(db: Db, user: nat, p: int, t: int)
    ensures var r := PostOrders.RetryPost(db, user, p);
            var lost := 0 <= p < |db.posts| && db.posts[p].user == user &&
                        (db.posts[p].certificate == Failed || db.posts[p].submit == Failed);
            if r.Retried? then
              r.db.publishOrders == db.publishOrders &&
              Published(r.db.posts, t) == Published(db.posts, t) - if lost then {p} else {}
            else !lost
  {
    var r := PostOrders.RetryPost(db, user, p);
    if r.Retried? {
      OnePost(db.posts, p, r.db.posts[p], t);
    }
  }

  lemma OutsideLoad(s: State, a: OutsideAction, t: int)
    requires Inv(s) && OutsideEnabled(s, a) && TaskDoing(s.db, Job(PublishJob, t))
    ensures OrdersOfTask(OutsideNext(s, a).db.publishOrders, t) == OrdersOfTask(s.db.publishOrders, t)
    ensures Published(OutsideNext(s, a).db.posts, t) == Published(s.db.posts, t) - Hit(s, Outside(a))
  {
    hide Inv, DeployInv, PublishInv, Published, OrdersOfTask, SiteOrders.SaveDeployOrder, SiteOrders.GeneratePublishOrder,
         SiteTasks.LinkOrGenerate, SiteOrders.EndRetry, SiteOrders.BeginRetry, PostOrders.RetryPost;
    History.Parts(s);
    var posts' := OutsideNext(s, a).db.posts;
    match a
    case ATick =>
    case ACreateSite(_) =>
    case ASavePost(user) => OnePostMore(s.db.posts, posts', t);
    case ARequestDeploy(user, site) => SavedLoad(s.db, user, site, t);
    case ARequestPublish(user) => GeneratedLoad(s.db, user, t);
    case ARetry(user, p) => RetriedLoad(s.db, user, p, t);
    case ABeginCertificate(p) => OnePost(s.db.posts, p, posts'[p], t);
    case AStoreCertificate(p) => OnePost(s.db.posts, p, posts'[p], t);
    case ALoseCertificate(p) => OnePost(s.db.posts, p, posts'[p], t);
    case ADeliverLink(e) => LinkedLoad(s.db.(links := s.db.links - multiset{e}), e.site, e.user, t);
    case ABeginRetry(e) => RetryBegunLoad(s.db, e, t);
    case AEndRetry(r) => RepointedLoad(s.db, r, t);
  }

  lemma PostsLoad(db: Db, user: nat, u: int, order: int, t: int)
    ensures SameLoad(db, PostTasks.Generate(db, user), t)
    ensures SameLoad(db, PostTasks.DoingTask(db, u), t)
    ensures SameLoad(db, PostTasks.FinishTask(db, u, order), t)
  {
  }

  lemma DeployLoad(db: Db, d: int, site: nat, user: nat, t: int)
    ensures 0 <= d < |db.deployOrders| ==> SameLoad(db, SiteTasks.StartDeploy(db, d, site, user), t)
    ensures SameLoad(db, SiteTasks.FinishDeploy(db, d), t)
  {
  }

  lemma MovedLoad(db: Db, u: int, state: TaskState, status: SiteStatus, t: int)
    requires u != t
    ensures SameLoad(db, SiteTasks.MovePublish(db, u, state, status), t)
  {
  }

  /** The posts that the failure of a task takes out of the publish they are in. */
  function Failing(db: Db, j: Job): set<int> {
    if j.kind == PostJob then Batch(db.posts, j.task) else {}
  }

  lemma FailedLoad(db: Db, j: Job, t: int)
    requires j != Job(PublishJob, t)
    ensures OrdersOfTask(FailTask(db, j).publishOrders, t) == OrdersOfTask(db.publishOrders, t)
    ensures Published(FailTask(db, j).posts, t) == Published(db.posts, t) - Failing(db, j)
  {
  }

  /** The posts that the action takes out of the publish they are in. */
  function Dropped(s: State, a: Action): set<int> {
    match a
    case Worker(AFailJob(j)) => Failing(s.db, j)
    case Dispatcher(AAbandon) => if s.phase.Marked? then Failing(s.db, s.phase.job) else {}
    case _ => Hit(s, a)
  }

  ghost function Drops(s: State, actions: seq<Action>): set<int>
    requires IsRun(s, actions)
    decreases |actions|
  {
    if actions == [] then {} else Dropped(s, actions[0]) + Drops(Next(s, actions[0]), actions[1..])
  }

  lemma WorkerLoad(s: State, a: WorkerAction, t: int)
    requires Inv(s) && WorkerEnabled(s, a) && TaskDoing(s.db, Job(PublishJob, t))
    requires TaskDoing(WorkerNext(s, a).db, Job(PublishJob, t))
    ensures OrdersOfTask(WorkerNext(s, a).db.publishOrders, t) == OrdersOfTask(s.db.publishOrders, t)
    ensures Published(WorkerNext(s, a).db.posts, t) == Published(s.db.posts, t) - Dropped(s, Worker(a))
  {
    hide Inv, Published, Failing, SiteOrders.GeneratePublishOrder, FailTask, PostTasks.FinishTask, SiteTasks.FinishDeploy,
         SiteTasks.FinishPublish, WorkerNext;
    WorkerDb(s, a);
    match a
    case AStartJob(_) =>
    case AReport(_, p) => OnePost(s.db.posts, p, PostOrders.FailSubmit(s.db, p).posts[p], t);
    case ACompleteDeploy(u) => DeployLoad(s.db, u, 0, 0, t);
    case AOrderFirstPublish(u) => GeneratedLoad(s.db, s.db.deployTasks[u].user, t);
    case ACompletePosts(u) => GeneratedLoad(s.db, s.db.postTasks[u].user, t);
    case AFinishPosts(u) => PostsLoad(s.db, 0, u, s.closing[u], t);
    case ACompletePublish(u) => FinishedIsOver(s.db, u, t); FinishedLoad(s.db, u, t);
    case AFailJob(j) => FailedIsOver(s.db, j, t); FailedLoad(s.db, j, t);
  }

  lemma FinishedLoad(db: Db, u: int, t: int)
    requires u != t
    ensures SameLoad(db, SiteTasks.FinishPublish(db, u), t)
  {
    MovedLoad(db, u, Finished, SiteStatus.Published, t);
  }

  lemma FinishedIsOver(db: Db, u: int, t: int)
    requires TaskDoing(SiteTasks.FinishPublish(db, u), Job(PublishJob, t))
    ensures u != t
  {
  }

  lemma FailedIsOver(db: Db, j: Job, t: int)
    requires TaskDoing(FailTask(db, j), Job(PublishJob, t))
    ensures j != Job(PublishJob, t)
  {
  }

  lemma DispatcherLoad(s: State, a: DispatcherAction, t: int)
    requires Inv(s) && DispatcherEnabled(s, a) && TaskDoing(s.db, Job(PublishJob, t))
    requires TaskDoing(DispatcherNext(s, a).db, Job(PublishJob, t))
    ensures OrdersOfTask(DispatcherNext(s, a).db.publishOrders, t) == OrdersOfTask(s.db.publishOrders, t)
    ensures Published(DispatcherNext(s, a).db.posts, t) == Published(s.db.posts, t) - Dropped(s, Dispatcher(a))
  {
    DispatcherDb(s, a);
    History.Parts(s);
    if a == ALinkForPublish { StepKeeps.ChosenSite(s, s.phase.choice.o); }
    hide Inv, PublishInv, Published, Failing, FailTask, PostTasks.DoingTask, PostTasks.Generate, SiteTasks.StartDeploy,
         SiteTasks.LinkOrGenerate, SiteTasks.DoingPublish, DispatcherNext;
    match a
    case AStartDeploy =>
      var o := s.db.deployOrders[s.phase.choice.d];
      DeployLoad(s.db, s.phase.choice.d, o.site, o.user, t);
    case ASweep => PostsLoad(s.db, s.db.posts[s.phase.choice.p].user, 0, 0, t);
    case AMarkPosts => PostsLoad(s.db, 0, s.phase.postTask, 0, t);
    case ALinkForPublish =>
      var o := s.db.publishOrders[s.phase.choice.o];
      LinkedLoad(s.db, o.site, o.user, t);
    case AMarkPublish => MarkedLoad(s.db, s.db.publishOrders[s.phase.order].task, t);
    case AAbandon => FailedIsOver(s.db, s.phase.job, t); FailedLoad(s.db, s.phase.job, t);
    case _ =>
  }

  lemma MarkedLoad(db: Db, u: int, t: int)
    requires 0 <= u < |db.publishTasks| && db.publishTasks[u].state == Pending && TaskDoing(db, Job(PublishJob, t))
    ensures SameLoad(db, SiteTasks.DoingPublish(db, u), t)
  {
    MovedLoad(db, u, Doing, Publishing, t);
  }

  /** While publish task t runs its orders stay its orders, and its posts stay except those dropped. */
  lemma StepLoad(s: State, a: Action, t: int)
    requires Inv(s) && Enabled(s, a)
    requires TaskDoing(s.db, Job(PublishJob, t)) && TaskDoing(Next(s, a).db, Job(PublishJob, t))
    ensures OrdersOfTask(Next(s, a).db.publishOrders, t) == OrdersOfTask(s.db.publishOrders, t)
    ensures Published(Next(s, a).db.posts, t) == Published(s.db.posts, t) - Dropped(s, a)
  {
    hide Inv, Published, Hit, Failing, OutsideEnabled, OutsideNext, DispatcherEnabled, DispatcherNext, WorkerEnabled, WorkerNext;
    match a
    case Outside(o) => OutsideLoad(s, o, t);
    case Dispatcher(d) => DispatcherLoad(s, d, t);
    case Worker(w) => WorkerLoad(s, w, t);
  }

  /** A task that has started and is not over at the end of a run was running all the time. */
  lemma StillPublishing(s: State, a: Action, rest: seq<Action>, t: int)
    requires Inv(s) && Enabled(s, a) && IsRun(Next(s, a), rest)
    requires TaskDoing(s.db, Job(PublishJob, t)) && TaskDoing(After(Next(s, a), rest).db, Job(PublishJob, t))
    ensures TaskDoing(Next(s, a).db, Job(PublishJob, t))
  {
    hide Inv, Enabled, Next, After, IsRun;
    StepInv(s, a);
    StepSettles(s, a);
    RunSettles(Next(s, a), rest);
  }

  lemma {:induction false} RunLoad(s: State, actions: seq<Action>, t: int)
    requires Inv(s) && IsRun(s, actions)
    requires TaskDoing(s.db, Job(PublishJob, t)) && TaskDoing(After(s, actions).db, Job(PublishJob, t))
    ensures OrdersOfTask(After(s, actions).db.publishOrders, t) == OrdersOfTask(s.db.publishOrders, t)
    ensures Published(After(s, actions).db.posts, t) == Published(s.db.posts, t) - Drops(s, actions)
    decreases |actions|
  {
    if actions != [] {
      hide Inv, Published, Dropped, Enabled, Next, TaskDoing;
      StepInv(s, actions[0]);
      StillPublishing(s, actions[0], actions[1..], t);
      StepLoad(s, actions[0], t);
      RunLoad(Next(s, actions[0]), actions[1..], t);
    }
  }

  /** What the end of a publish does to the rows that carry its task. */
  lemma EndSettlesLoad(db: Db, t: int)
    requires 0 <= t < |db.publishTasks|
    ensures var finished := SiteTasks.FinishPublish(db, t);
            var failed := SiteTasks.FailPublish(db, t);
            |finished.publishOrders| == |failed.publishOrders| == |db.publishOrders| &&
            |finished.posts| == |failed.posts| == |db.posts| &&
            (forall i :: 0 <= i < |db.publishOrders| ==>
              if i in OrdersOfTask(db.publishOrders, t)
              then finished.publishOrders[i].state == Finished && failed.publishOrders[i].state == Failed
              else finished.publishOrders[i] == db.publishOrders[i] == failed.publishOrders[i]) &&
            (forall i :: i in Published(db.posts, t) ==>
              0 <= i < |db.posts| && finished.posts[i].publish == Finished && failed.posts[i].publish == Failed)
  {
  }

  // ---- between the link and the marking ----

  /** The orders of a PENDING task stay on it. */
  predicate Stay(a: Db, b: Db, t: int) {
    OrdersOfTask(a.publishOrders, t) <= OrdersOfTask(b.publishOrders, t)
  }

  lemma LinkedStay(db: Db, site: nat, user: nat, t: int)
    requires PublishInv(db.sites, db.publishOrders, db.publishTasks)
    requires site < |db.sites| && db.sites[site].user == user
    requires 0 <= t < |db.publishTasks| && db.publishTasks[t].state == Pending
    ensures Stay(db, SiteTasks.LinkOrGenerate(db, site, user), t)
  {
    var u := NextTask(db, site, user);
    PublishKeeps.LinkedTask(db, site, user);
    PublishKeeps.PendingTask(db.sites, db.publishOrders, db.publishTasks, site, user);
    if t != u {
      PendingElsewhere(db, site, user, t);
      forall i | 0 <= i < |db.publishOrders| && db.publishOrders[i].task == t ensures db.publishOrders[i].site != site {
        assert PublishOrderAgrees(db.publishTasks, db.publishOrders[i]);
      }
    }
  }

  /** A PENDING task other than the pair's next one belongs to another site. */
  lemma PendingElsewhere(db: Db, site: nat, user: nat, t: int)
    requires PublishInv(db.sites, db.publishOrders, db.publishTasks)
    requires site < |db.sites| && db.sites[site].user == user
    requires 0 <= t < |db.publishTasks| && db.publishTasks[t].state == Pending && t != NextTask(db, site, user)
    ensures db.publishTasks[t].site != site
  {
    PublishKeeps.PendingTask(db.sites, db.publishOrders, db.publishTasks, site, user);
    var tasks' := PublishKeeps.WithPending(db.publishTasks, site, user);
    assert tasks'[t] == db.publishTasks[t];
  }

  lemma MovedStay(db: Db, u: int, state: TaskState, status: SiteStatus, t: int)
    ensures Stay(db, SiteTasks.MovePublish(db, u, state, status), t)
  {
  }

  lemma FailedStay(db: Db, j: Job, t: int)
    ensures Stay(db, FailTask(db, j), t)
  {
  }

  lemma OutsideStay(s: State, a: OutsideAction, t: int)
    requires Inv(s) && OutsideEnabled(s, a)
    requires 0 <= t < |s.db.publishTasks| && s.db.publishTasks[t].state == Pending
    ensures Stay(s.db, OutsideNext(s, a).db, t)
  {
    hide Inv, PublishInv, Published, SiteOrders.SaveDeployOrder, SiteOrders.GeneratePublishOrder, SiteTasks.LinkOrGenerate,
         SiteOrders.EndRetry, SiteOrders.BeginRetry, PostOrders.RetryPost;
    History.Parts(s);
    match a
    case ARequestDeploy(user, site) => SavedLoad(s.db, user, site, t);
    case ARequestPublish(user) => GeneratedLoad(s.db, user, t);
    case ARetry(user, p) => RetriedLoad(s.db, user, p, t);
    case ADeliverLink(e) => LinkedStay(s.db.(links := s.db.links - multiset{e}), e.site, e.user, t);
    case ABeginRetry(e) => RetryBegunLoad(s.db, e, t);
    case AEndRetry(r) => RepointedLoad(s.db, r, t);
    case _ =>
  }

  lemma WorkerStay(s: State, a: WorkerAction, t: int)
    requires WorkerEnabled(s, a) && t != NONE
    ensures Stay(s.db, WorkerNext(s, a).db, t)
  {
    hide Published, SiteOrders.GeneratePublishOrder, FailTask, PostTasks.FinishTask, SiteTasks.FinishDeploy,
         SiteTasks.MovePublish, WorkerNext;
    WorkerDb(s, a);
    match a
    case ACompleteDeploy(u) => DeployLoad(s.db, u, 0, 0, t);
    case AOrderFirstPublish(u) => GeneratedLoad(s.db, s.db.deployTasks[u].user, t);
    case ACompletePosts(u) => GeneratedLoad(s.db, s.db.postTasks[u].user, t);
    case AFinishPosts(u) => PostsLoad(s.db, 0, u, s.closing[u], t);
    case ACompletePublish(u) => MovedStay(s.db, u, Finished, SiteStatus.Published, t);
    case AFailJob(j) => FailedStay(s.db, j, t);
    case _ =>
  }

  lemma LinkedOnPending(s: State, o: int)
    requires Inv(s) && s.phase == Linked(o)
    ensures 0 <= o < |s.db.publishOrders| && 0 <= s.db.publishOrders[o].task < |s.db.publishTasks|
    ensures s.db.publishTasks[s.db.publishOrders[o].task].state == Pending
  {
  }

  lemma NextStay(s: State, a: Action, t: int)
    requires Inv(s) && Enabled(s, a) && !a.Dispatcher?
    requires 0 <= t < |s.db.publishTasks| && s.db.publishTasks[t].state == Pending
    ensures Stay(s.db, Next(s, a).db, t)
  {
    hide Inv, Stay, OutsideEnabled, OutsideNext, DispatcherEnabled, DispatcherNext, WorkerEnabled, WorkerNext;
    match a
    case Outside(x) => OutsideStay(s, x, t);
    case Worker(x) => WorkerStay(s, x, t);
  }

  lemma StillOn(a: Db, b: Db, o: int)
    requires 0 <= o < |a.publishOrders| && Stay(a, b, a.publishOrders[o].task)
    ensures o < |b.publishOrders| && b.publishOrders[o].task == a.publishOrders[o].task
  {
    assert o in OrdersOfTask(a.publishOrders, a.publishOrders[o].task);
  }

  lemma StepStay(s: State, a: Action, o: int)
    requires 0 <= o < |s.db.publishOrders|
    requires Inv(s) && s.phase == Linked(o) && Enabled(s, a) && !a.Dispatcher?
    ensures Next(s, a).phase == Linked(o)
    ensures Stay(s.db, Next(s, a).db, s.db.publishOrders[o].task)
    ensures o < |Next(s, a).db.publishOrders| && Next(s, a).db.publishOrders[o].task == s.db.publishOrders[o].task
  {
    hide Inv, Stay, Enabled, Next;
    var t := s.db.publishOrders[o].task;
    LinkedOnPending(s, o);
    SamePhase(s, a);
    NextStay(s, a, t);
    StillOn(s.db, Next(s, a).db, o);
  }

  lemma SamePhase(s: State, a: Action)
    requires Enabled(s, a) && !a.Dispatcher?
    ensures Next(s, a).phase == s.phase
  {
  }

  lemma {:induction false} MeanwhileStay(s: State, actions: seq<Action>, o: int)
    requires 0 <= o < |s.db.publishOrders|
    requires Inv(s) && s.phase == Linked(o) && IsRun(s, actions) && Meanwhile(actions)
    ensures var s' := After(s, actions);
            Inv(s') && s'.phase == Linked(o) && o < |s'.db.publishOrders| &&
            s'.db.publishOrders[o].task == s.db.publishOrders[o].task && Stay(s.db, s'.db, s.db.publishOrders[o].task)
    decreases |actions|
  {
    if actions != [] {
      StepStay(s, actions[0], o);
      StepInv(s, actions[0]);
      hide Inv, Enabled, Next;
      MeanwhileRest(actions);
      MeanwhileStay(Next(s, actions[0]), actions[1..], o);
    }
  }

  // ---- the whole life of a publish ----

  /** From the marking to the end: exactly the orders that carry the task at the marking are settled,
      and with them every post that carries it and is not dropped meanwhile. */
  lemma PublishSettlesCarried(s: State, actions: seq<Action>, t: int, db: Db)
    requires Reachable(s) && s.phase.Linked? && 0 <= s.phase.order < |s.db.publishOrders|
    requires t == s.db.publishOrders[s.phase.order].task
    requires IsRun(MarkPublish(s), actions) && db == After(MarkPublish(s), actions).db
    requires TaskDoing(db, Job(PublishJob, t))
    ensures var carried := OrdersOfTask(s.db.publishOrders, t);
            var finished := SiteTasks.FinishPublish(db, t);
            var failed := SiteTasks.FailPublish(db, t);
            |finished.publishOrders| == |failed.publishOrders| == |db.publishOrders| &&
            (forall i :: 0 <= i < |db.publishOrders| ==>
              if i in carried then finished.publishOrders[i].state == Finished && failed.publishOrders[i].state == Failed
              else finished.publishOrders[i] == db.publishOrders[i] == failed.publishOrders[i]) &&
            (forall i :: 0 <= i < |s.db.posts| && s.db.posts[i].publishTask == t ==>
              i in Drops(MarkPublish(s), actions) ||
              (i < |finished.posts| && finished.posts[i].publish == Finished && failed.posts[i].publish == Failed))
  {
    hide Reachable, Inv, MarkPublish, OrdersOfTask, SiteTasks.FinishPublish, SiteTasks.FailPublish, IsRun, After, Drops,
         TaskDoing;
    ReachableInv(s);
    CarriedSettle(s, actions, t, db);
  }

  lemma CarriedSettle(s: State, actions: seq<Action>, t: int, db: Db)
    requires Inv(s) && s.phase.Linked? && 0 <= s.phase.order < |s.db.publishOrders|
    requires t == s.db.publishOrders[s.phase.order].task
    requires IsRun(MarkPublish(s), actions) && db == After(MarkPublish(s), actions).db
    requires TaskDoing(db, Job(PublishJob, t))
    ensures var carried := OrdersOfTask(s.db.publishOrders, t);
            var finished := SiteTasks.FinishPublish(db, t);
            var failed := SiteTasks.FailPublish(db, t);
            |finished.publishOrders| == |failed.publishOrders| == |db.publishOrders| &&
            (forall i :: i in carried ==> 0 <= i < |db.publishOrders|) &&
            (forall i :: 0 <= i < |db.publishOrders| ==>
              if i in carried then finished.publishOrders[i].state == Finished && failed.publishOrders[i].state == Failed
              else finished.publishOrders[i] == db.publishOrders[i] == failed.publishOrders[i]) &&
            (forall i :: 0 <= i < |s.db.posts| && s.db.posts[i].publishTask == t ==>
              i in Drops(MarkPublish(s), actions) ||
              (i < |finished.posts| && finished.posts[i].publish == Finished && failed.posts[i].publish == Failed))
  {
    hide Inv, MarkPublish, OrdersOfTask, Published, Carriers, SiteTasks.FinishPublish, SiteTasks.FailPublish, IsRun, After, Drops;
    MarkingCarries(s);
    MarkingInv(s);
    RunLoad(MarkPublish(s), actions, t);
    EndSettlesLoad(db, t);
    OrdersBound(db.publishOrders, t);
    CarriersBound(s.db.posts, t);
  }

  /** The posts that carry the task's id. */
  function Carriers(posts: seq<PostOrder>, t: int): set<int> {
    set i | 0 <= i < |posts| && posts[i].publishTask == t
  }

  lemma CarriersBound(posts: seq<PostOrder>, t: int)
    ensures forall i :: 0 <= i < |posts| && posts[i].publishTask == t ==> i in Carriers(posts, t)
  {
  }

  lemma MarkingInv(s: State)
    requires Inv(s) && s.phase.Linked? && 0 <= s.phase.order < |s.db.publishOrders|
    ensures Inv(MarkPublish(s))
  {
    hide Inv, MarkPublish;
    StepInv(s, Dispatcher(AMarkPublish));
  }

  lemma OrdersBound(orders: seq<PublishOrder>, t: int)
    ensures forall i :: i in OrdersOfTask(orders, t) ==> 0 <= i < |orders|
  {
  }

  lemma MarkingCarries(s: State)
    requires Inv(s) && s.phase.Linked? && 0 <= s.phase.order < |s.db.publishOrders|
    ensures var t := s.db.publishOrders[s.phase.order].task;
            var s' := MarkPublish(s);
            TaskDoing(s'.db, Job(PublishJob, t)) && s'.phase == Marked(Job(PublishJob, t)) &&
            OrdersOfTask(s'.db.publishOrders, t) == OrdersOfTask(s.db.publishOrders, t) &&
            Published(s'.db.posts, t) == Carriers(s.db.posts, t)
  {
    StepKeeps.LinkedIsFound(s.db, s.phase.order);
  }

  lemma LinkedChoice(s: State)
    requires Inv(s) && DispatcherEnabled(s, ALinkForPublish) && LinkForPublish(s).phase.Linked?
    ensures var o := s.phase.choice.o;
            var order := s.db.publishOrders[o];
            var s' := LinkForPublish(s);
            s'.phase == Linked(o) && |s'.db.publishOrders| == |s.db.publishOrders| &&
            o in Owed(s.db.publishOrders, order.site, order.user) &&
            OrdersOfTask(s'.db.publishOrders, s'.db.publishOrders[o].task) ==
              Owed(s.db.publishOrders, order.site, order.user)
  {
    hide Inv, PublishInv, SiteTasks.LinkOrGenerate, NextTask;
    var order := s.db.publishOrders[s.phase.choice.o];
    StepKeeps.ChosenSite(s, s.phase.choice.o);
    LinkedOrders(s.db, order.site, order.user);
    PublishKeeps.LinkedTask(s.db, order.site, order.user);
    ChosenPending(s);
    assert s.phase.choice.o in OrdersOfTask(LinkForPublish(s).db.publishOrders, NextTask(s.db, order.site, order.user));
  }

  lemma ChosenPending(s: State)
    requires Inv(s) && DispatcherEnabled(s, ALinkForPublish)
    ensures s.db.publishOrders[s.phase.choice.o].state == Pending
  {
  }

  /** The orders owed at the link are carried at the marking, whatever happens in between. */
  lemma OwedAreCarried(s: State, before: seq<Action>)
    requires Inv(s) && DispatcherEnabled(s, ALinkForPublish) && LinkForPublish(s).phase.Linked?
    requires IsRun(LinkForPublish(s), before) && Meanwhile(before)
    ensures var o := s.phase.choice.o;
            var order := s.db.publishOrders[o];
            var held := After(LinkForPublish(s), before);
            Inv(held) && held.phase == Linked(o) && o < |held.db.publishOrders| &&
            o in Owed(s.db.publishOrders, order.site, order.user) &&
            Owed(s.db.publishOrders, order.site, order.user)
              <= OrdersOfTask(held.db.publishOrders, held.db.publishOrders[o].task)
  {
    hide Inv, LinkForPublish, OrdersOfTask, Owed, IsRun, After, Meanwhile;
    LinkedChoice(s);
    StepInv(s, Dispatcher(ALinkForPublish));
    MeanwhileStay(LinkForPublish(s), before, s.phase.choice.o);
  }

  /** Every order of the pair that was PENDING or FAILED when the dispatcher linked the publish is
      FINISHED when the publish succeeds, whatever happens between the steps. */
  lemma OwedOrdersFinish(s: State, before: seq<Action>, held: State, after: seq<Action>, db: Db)
    requires Reachable(s) && DispatcherEnabled(s, ALinkForPublish) && LinkForPublish(s).phase.Linked?
    requires IsRun(LinkForPublish(s), before) && Meanwhile(before) && held == After(LinkForPublish(s), before)
    requires held.phase.Linked? && 0 <= held.phase.order < |held.db.publishOrders|
    requires IsRun(MarkPublish(held), after) && db == After(MarkPublish(held), after).db
    requires TaskDoing(db, Job(PublishJob, held.db.publishOrders[held.phase.order].task))
    ensures var order := s.db.publishOrders[s.phase.choice.o];
            var finished := SiteTasks.FinishPublish(db, held.db.publishOrders[held.phase.order].task);
            held.phase.order == s.phase.choice.o && s.phase.choice.o in Owed(s.db.publishOrders, order.site, order.user) &&
            forall i :: i in Owed(s.db.publishOrders, order.site, order.user) ==>
              0 <= i < |finished.publishOrders| && finished.publishOrders[i].state == Finished
  {
    hide Reachable, Inv, LinkForPublish, MarkPublish, OrdersOfTask, Owed, IsRun, After, Meanwhile, SiteTasks.FinishPublish,
         SiteTasks.FailPublish, Drops, TaskDoing;
    ReachableInv(s);
    OwedAreCarried(s, before);
    CarriedSettle(held, after, held.db.publishOrders[held.phase.order].task, db);
  }
}

/** What a step never takes back: finished work stays finished, a deployed site stays deployed. */
module History {
  import opened PipelineTypes
  import opened Tables
  import opened Pipeline
  import opened Invariants
  import opened Runs
  import StepKeeps
  import PostOrders
  import PostTasks
  import SiteOrders
  import SiteTasks
  import PublishKeeps

  /** A task starts at most once and ends at most once: PENDING, DOING, then FINISHED or FAILED. */
  predicate Advances(a: TaskState, b: TaskState) {
    a == b || (a == Pending && b != Nothing) || (a == Doing && b in {Finished, Failed})
  }

  predicate SitesSettle(a: seq<Site>, b: seq<Site>) {
    |a| <= |b| && forall x :: 0 <= x < |a| ==>
      b[x].user == a[x].user && (PastDeploy(a[x].status) ==> PastDeploy(b[x].status))
  }

  predicate DeploysSettle(a: Db, b: Db) {
    |a.deployOrders| <= |b.deployOrders| && |a.deployTasks| <= |b.deployTasks| &&
    (forall i :: 0 <= i < |a.deployOrders| ==>
      b.deployOrders[i].(state := a.deployOrders[i].state, task := a.deployOrders[i].task) == a.deployOrders[i] &&
      (a.deployOrders[i].state == Finished ==> b.deployOrders[i] == a.deployOrders[i])) &&
    (forall t :: 0 <= t < |a.deployTasks| ==>
      b.deployTasks[t].(state := a.deployTasks[t].state) == a.deployTasks[t] &&
      Advances(a.deployTasks[t].state, b.deployTasks[t].state))
  }

  predicate PublishesSettle(a: Db, b: Db) {
    |a.publishOrders| <= |b.publishOrders| && |a.publishTasks| <= |b.publishTasks| &&
    (forall i :: 0 <= i < |a.publishOrders| ==>
      b.publishOrders[i].(state := a.publishOrders[i].state, task := a.publishOrders[i].task) == a.publishOrders[i] &&
      (a.publishOrders[i].state == Finished ==> b.publishOrders[i] == a.publishOrders[i])) &&
    (forall t :: 0 <= t < |a.publishTasks| ==>
      b.publishTasks[t].(state := a.publishTasks[t].state) == a.publishTasks[t] &&
      Advances(a.publishTasks[t].state, b.publishTasks[t].state))
  }

  predicate PostsSettle(a: Db, b: Db) {
    |a.posts| <= |b.posts| && |a.postTasks| <= |b.postTasks| &&
    (forall i :: 0 <= i < |a.posts| ==>
      b.posts[i].user == a.posts[i].user && b.posts[i].createdAt == a.posts[i].createdAt) &&
    (forall t :: 0 <= t < |a.postTasks| ==>
      b.postTasks[t].user == a.postTasks[t].user && Advances(a.postTasks[t].state, b.postTasks[t].state))
  }

  /** From a to b no row disappears or changes hands, FINISHED orders stay as they are, tasks only
      advance, and no site goes back behind its deployment. */
  predicate Settles(a: Db, b: Db) {
    SitesSettle(a.sites, b.sites) && DeploysSettle(a, b) && PublishesSettle(a, b) && PostsSettle(a, b)
  }

  lemma SettlesTransitive(a: Db, b: Db, c: Db)
    requires Settles(a, b) && Settles(b, c)
    ensures Settles(a, c)
  {
    assert SitesSettle(a.sites, c.sites);
    assert DeploysSettle(a, c);
    assert PublishesSettle(a, c);
    assert PostsSettle(a, c);
  }

  lemma Generated(db: Db, user: nat)
    ensures Settles(db, SiteOrders.GeneratePublishOrder(db, user).db)
  {
  }

  lemma DeploySaved(db: Db, user: nat, site: int)
    requires DeployInv(db.sites, db.deployOrders, db.deployTasks)
    ensures Settles(db, SiteOrders.SaveDeployOrder(db, user, site))
  {
    hide DeployInv, Settles;
    Untouched(db, db);
    if 0 <= site < |db.sites| {
      var d := DeployOrderOf(db.deployOrders, site, user);
      if d == NONE {
        DeployRequested(db, user, site);
      } else if db.sites[site].status == DeployFailed {
        FinishedIsDeployed(db, d);
        DeployRevived(db, d, site);
      }
    }
  }

  lemma DeployRequested(db: Db, user: nat, site: nat)
    ensures var saved := PostOrders.SavePost(db, user, Finished, Finished);
            Settles(db, saved.(deployOrders := saved.deployOrders + [DeployOrder(user, site, db.clock, Pending, NONE)]))
  {
  }

  lemma DeployRevived(db: Db, d: int, site: int)
    requires 0 <= d < |db.deployOrders| && 0 <= site < |db.sites| && db.sites[site].status == DeployFailed
    requires db.deployOrders[d].state != Finished
    ensures Settles(db, db.(sites := SetSiteStatus(db.sites, site, Configured),
                            deployOrders := db.deployOrders[d := db.deployOrders[d].(state := Pending)]))
  {
  }

  lemma FinishedIsDeployed(db: Db, d: int)
    requires DeployInv(db.sites, db.deployOrders, db.deployTasks) && 0 <= d < |db.deployOrders|
    ensures db.deployOrders[d].site < |db.sites|
    ensures db.deployOrders[d].state == Finished ==> db.sites[db.deployOrders[d].site].status != DeployFailed
  {
    assert DeployOrderAgrees(db.sites, db.deployTasks, db.deployOrders[d]);
  }

  lemma PostChange(db: Db, p: int, row: PostOrder)
    requires 0 <= p < |db.posts| && row.user == db.posts[p].user && row.createdAt == db.posts[p].createdAt
    ensures Settles(db, db.(posts := db.posts[p := row]))
  {
  }

  lemma LinkChange(db: Db, site: nat, user: nat)
    requires PublishInv(db.sites, db.publishOrders, db.publishTasks)
    requires site < |db.sites| && db.sites[site].user == user
    ensures Settles(db, SiteTasks.LinkOrGenerate(db, site, user))
  {
    hide PublishInv, SiteTasks.LinkOrGenerate;
    PublishKeeps.LinkedTask(db, site, user);
    var tasks' := PublishKeeps.WithPending(db.publishTasks, site, user);
    var t := LatestTaskOf(tasks', site, user);
    var orders' := UpdateOrders(db.publishOrders, UnpublishedOfSite(user, site), SetTask(t));
    LinkedRows(db, SiteTasks.LinkOrGenerate(db, site, user), site, user, t, OrdersOfTask(orders', t));
  }

  lemma LinkedRows(a: Db, b: Db, site: nat, user: nat, t: int, ids: set<int>)
    requires b.sites == a.sites && b.deployOrders == a.deployOrders && b.deployTasks == a.deployTasks
    requires |a.publishTasks| <= |b.publishTasks|
    requires forall u :: 0 <= u < |a.publishTasks| ==> b.publishTasks[u] == a.publishTasks[u]
    requires b.publishOrders == UpdateOrders(a.publishOrders, UnpublishedOfSite(user, site), SetTask(t))
    requires b.posts == UpdatePosts(a.posts, UnpublishedOfOrders(ids), SetPublishTask(t))
    requires b.postTasks == UpdatePostTasks(a.postTasks, ids, t)
    ensures Settles(a, b)
  {
  }

  lemma DeployMoved(db: Db, t: int, state: TaskState, status: SiteStatus)
    requires DeployInv(db.sites, db.deployOrders, db.deployTasks)
    requires 0 <= t < |db.deployTasks| && db.deployTasks[t].state == Doing && state in {Finished, Failed}
    ensures Settles(db, SiteTasks.CloseDeploy(db, t, state, status))
  {
    forall i | 0 <= i < |db.deployOrders| && db.deployOrders[i].task == t ensures db.deployOrders[i].state != Finished {
      assert DeployOrderAgrees(db.sites, db.deployTasks, db.deployOrders[i]);
    }
  }

  lemma DeployStarted(db: Db, d: int)
    requires DeployInv(db.sites, db.deployOrders, db.deployTasks) && 0 <= d < |db.deployOrders|
    requires db.sites[db.deployOrders[d].site].status == Configured && db.deployOrders[d].state == Pending
    ensures var o := db.deployOrders[d]; Settles(db, SiteTasks.StartDeploy(db, d, o.site, o.user))
  {
  }

  lemma PublishMoved(db: Db, t: int, state: TaskState, status: SiteStatus)
    requires PublishInv(db.sites, db.publishOrders, db.publishTasks) && PastDeploy(status)
    requires 0 <= t < |db.publishTasks| && state in {Doing, Finished, Failed}
    requires db.publishTasks[t].state == if state == Doing then Pending else Doing
    ensures Settles(db, SiteTasks.MovePublish(db, t, state, status))
  {
    UnfinishedOrders(db, t);
    hide PublishInv;
  }

  lemma UnfinishedOrders(db: Db, t: int)
    requires PublishInv(db.sites, db.publishOrders, db.publishTasks)
    requires 0 <= t < |db.publishTasks| && db.publishTasks[t].state in {Pending, Doing}
    ensures forall i :: 0 <= i < |db.publishOrders| && db.publishOrders[i].task == t ==> db.publishOrders[i].state != Finished
  {
    forall i | 0 <= i < |db.publishOrders| && db.publishOrders[i].task == t ensures db.publishOrders[i].state != Finished {
      assert PublishOrderAgrees(db.publishTasks, db.publishOrders[i]);
    }
  }

  lemma PostTaskMoved(db: Db, t: int, order: int)
    requires 0 <= t < |db.postTasks| && db.postTasks[t].state in {Pending, Doing}
    ensures db.postTasks[t].state == Pending ==> Settles(db, PostTasks.DoingTask(db, t))
    ensures db.postTasks[t].state == Doing ==>
      Settles(db, PostTasks.FinishTask(db, t, order)) && Settles(db, PostTasks.FailTask(db, t))
  {
  }

  lemma OutsideSettles(s: State, a: OutsideAction)
    requires Inv(s) && OutsideEnabled(s, a)
    ensures Settles(s.db, OutsideNext(s, a).db)
  {
    hide Inv, DeployInv, PublishInv, Settles, SiteOrders.SaveDeployOrder, SiteOrders.GeneratePublishOrder,
         SiteTasks.LinkOrGenerate, SiteOrders.EndRetry, SiteOrders.BeginRetry, PostOrders.RetryPost;
    Parts(s);
    match a
    case ATick => Untouched(s.db, OutsideNext(s, a).db);
    case ACreateSite(_) => SiteCreated(s.db, OutsideNext(s, a).db);
    case ASavePost(_) => PostSaved(s.db, OutsideNext(s, a).db);
    case ARequestDeploy(user, site) => DeploySaved(s.db, user, site);
    case ARequestPublish(user) => Generated(s.db, user);
    case ARetry(user, p) => Retried(s.db, user, p); Untouched(s.db, s.db);
    case ABeginCertificate(p) => PostChange(s.db, p, OutsideNext(s, a).db.posts[p]);
    case AStoreCertificate(p) => PostChange(s.db, p, OutsideNext(s, a).db.posts[p]);
    case ALoseCertificate(p) => PostChange(s.db, p, OutsideNext(s, a).db.posts[p]);
    case ADeliverLink(e) => LinkDelivered(s.db, e);
    case ABeginRetry(e) => RetryBegun(s.db, e);
    case AEndRetry(r) => Repointed(s.db, r);
  }

  lemma Retried(db: Db, user: nat, p: int)
    ensures var r := PostOrders.RetryPost(db, user, p); r.Retried? ==> Settles(db, r.db)
  {
    var r := PostOrders.RetryPost(db, user, p);
    if r.Retried? {
      PostChange(db, p, r.db.posts[p]);
      hide Settles;
      SettlesSame(db, db.(posts := r.db.posts), r.db);
    }
  }

  lemma LinkDelivered(db: Db, e: LinkEvent)
    requires PublishInv(db.sites, db.publishOrders, db.publishTasks)
    requires e.site < |db.sites| && db.sites[e.site].user == e.user
    ensures Settles(db, SiteTasks.LinkOrGenerate(db.(links := db.links - multiset{e}), e.site, e.user))
  {
    hide Settles, SiteTasks.LinkOrGenerate;
    var taken := db.(links := db.links - multiset{e});
    LinkChange(taken, e.site, e.user);
    SettlesFrom(db, taken, SiteTasks.LinkOrGenerate(taken, e.site, e.user));
  }

  lemma RetryBegun(db: Db, e: RetryEvent)
    ensures Settles(db, SiteOrders.BeginRetry(db, e))
  {
    hide Settles, SiteOrders.GeneratePublishOrder;
    var taken := db.(retries := db.retries - multiset{e});
    var g := SiteOrders.GeneratePublishOrder(taken, e.user);
    Generated(taken, e.user);
    SettlesFrom(db, taken, g.db);
    SettlesSame(db, g.db, SiteOrders.BeginRetry(db, e));
  }

  lemma Untouched(a: Db, b: Db)
    requires b == a.(clock := b.clock)
    ensures Settles(a, b)
  {
  }

  lemma SiteCreated(a: Db, b: Db)
    requires b == a.(sites := b.sites) && |b.sites| == |a.sites| + 1 && b.sites[..|a.sites|] == a.sites
    ensures Settles(a, b)
  {
    assert forall x :: 0 <= x < |a.sites| ==> b.sites[x] == b.sites[..|a.sites|][x];
  }

  lemma PostSaved(a: Db, b: Db)
    requires b == a.(posts := b.posts) && |b.posts| == |a.posts| + 1 && b.posts[..|a.posts|] == a.posts
    ensures Settles(a, b)
  {
    assert forall i :: 0 <= i < |a.posts| ==> b.posts[i] == b.posts[..|a.posts|][i];
  }

  lemma Repointed(db: Db, r: Repoint)
    ensures Settles(db, SiteOrders.EndRetry(db, r))
  {
  }

  predicate SameRows(a: Db, b: Db) {
    b == a.(clock := b.clock, links := b.links, retries := b.retries, repoints := b.repoints)
  }

  lemma SettlesSame(a: Db, b: Db, c: Db)
    requires Settles(a, b) && SameRows(b, c)
    ensures Settles(a, c)
  {
  }

  lemma SettlesFrom(a: Db, b: Db, c: Db)
    requires SameRows(a, b) && Settles(b, c)
    ensures Settles(a, c)
  {
  }

  lemma Parts(s: State)
    requires Inv(s)
    ensures DeployInv(s.db.sites, s.db.deployOrders, s.db.deployTasks)
    ensures PublishInv(s.db.sites, s.db.publishOrders, s.db.publishTasks)
    ensures forall e :: e in s.db.links ==> e.site < |s.db.sites| && s.db.sites[e.site].user == e.user
  {
  }

  lemma DispatcherSettles(s: State, a: DispatcherAction)
    requires Inv(s) && DispatcherEnabled(s, a)
    ensures Settles(s.db, DispatcherNext(s, a).db)
  {
    Parts(s);
    match a
    case AStartDeploy => StartDeploySettles(s);
    case ASweep => SweepSettles(s);
    case AMarkPosts =>
      hide Settles;
      PostTaskMoved(s.db, s.phase.postTask, NONE);
    case ALinkForPublish => LinkSettles(s);
    case AMarkPublish => MarkPublishSettles(s);
    case AAbandon => AbandonSettles(s);
    case _ => hide Inv, FirstDeploy, FirstPublish, FirstPost; Untouched(s.db, s.db);
  }

  lemma StartDeploySettles(s: State)
    requires Inv(s) && DispatcherEnabled(s, AStartDeploy)
    ensures Settles(s.db, StartDeploy(s).db)
  {
    Parts(s);
    assert DeployPickOk(s.db, s.phase.choice.d);
    StepKeeps.StartDeployDb(s);
    hide Inv, Settles, SiteTasks.StartDeploy, Pipeline.StartDeploy;
    DeployStarted(s.db, s.phase.choice.d);
  }

  lemma SweepSettles(s: State)
    requires DispatcherEnabled(s, ASweep)
    ensures Settles(s.db, Sweep(s).db)
  {
  }

  lemma LinkSettles(s: State)
    requires Inv(s) && DispatcherEnabled(s, ALinkForPublish)
    ensures Settles(s.db, LinkForPublish(s).db)
  {
    StepKeeps.ChosenSite(s, s.phase.choice.o);
    hide Inv, Settles, SiteTasks.LinkOrGenerate;
    var order := s.db.publishOrders[s.phase.choice.o];
    LinkChange(s.db, order.site, order.user);
    Untouched(s.db, s.db);
  }

  lemma MarkPublishSettles(s: State)
    requires Inv(s) && DispatcherEnabled(s, AMarkPublish)
    ensures Settles(s.db, MarkPublish(s).db)
  {
    hide Inv, Settles, SiteTasks.MovePublish;
    Parts(s);
    var order := s.db.publishOrders[s.phase.order];
    var t := PendingTaskOf(s.db.publishTasks, order.site, order.user);
    Untouched(s.db, s.db);
    if t != NONE {
      PublishMoved(s.db, t, Doing, Publishing);
    }
  }

  lemma FailSettles(s: State, j: Job)
    requires Inv(s) && TaskDoing(s.db, j)
    ensures Settles(s.db, FailTask(s.db, j))
  {
    hide Inv, Settles;
    Parts(s);
    match j.kind
    case DeployJob => DeployMoved(s.db, j.task, Failed, DeployFailed);
    case PostJob => PostTaskMoved(s.db, j.task, NONE);
    case PublishJob => PublishMoved(s.db, j.task, Failed, PublishFailed);
  }

  lemma AbandonSettles(s: State)
    requires Inv(s) && s.phase.Marked?
    ensures Settles(s.db, Abandon(s).db)
  {
    StepKeeps.InFlight(s, s.phase.job);
    hide Inv, Settles, FailTask;
    FailSettles(s, s.phase.job);
  }

  lemma WorkerSettles(s: State, a: WorkerAction)
    requires Inv(s) && WorkerEnabled(s, a)
    ensures Settles(s.db, WorkerNext(s, a).db)
  {
    hide Inv, Settles, SiteOrders.GeneratePublishOrder, FailTask;
    Parts(s);
    match a
    case AStartJob(_) => Untouched(s.db, s.db);
    case AReport(_, p) => PostChange(s.db, p, WorkerNext(s, a).db.posts[p]);
    case ACompleteDeploy(t) =>
      StepKeeps.InFlight(s, Job(DeployJob, t));
      DeployMoved(s.db, t, Finished, Deployed);
    case AOrderFirstPublish(t) => Generated(s.db, s.db.deployTasks[t].user);
    case ACompletePosts(t) => Generated(s.db, s.db.postTasks[t].user);
    case AFinishPosts(t) =>
      StepKeeps.InFlight(s, Job(PostJob, t));
      PostTaskMoved(s.db, t, s.closing[t]);
    case ACompletePublish(t) =>
      StepKeeps.InFlight(s, Job(PublishJob, t));
      PublishMoved(s.db, t, Finished, Published);
    case AFailJob(j) =>
      StepKeeps.InFlight(s, j);
      FailSettles(s, j);
  }

  lemma StepSettles(s: State, a: Action)
    requires Inv(s) && Enabled(s, a)
    ensures Settles(s.db, Next(s, a).db)
  {
    hide Inv, Settles, OutsideEnabled, OutsideNext, DispatcherEnabled, DispatcherNext, WorkerEnabled, WorkerNext;
    match a
    case Outside(o) => OutsideSettles(s, o);
    case Dispatcher(d) => DispatcherSettles(s, d);
    case Worker(w) => WorkerSettles(s, w);
  }

  /** Over a whole run nothing that was settled is taken back. */
  lemma {:induction false} RunSettles(s: State, actions: seq<Action>)
    requires Inv(s) && IsRun(s, actions)
    ensures Settles(s.db, After(s, actions).db)
    decreases |actions|
  {
    if actions == [] {
      Untouched(s.db, s.db);
    } else {
      hide Inv, Settles, Enabled, Next;
      StepInv(s, actions[0]);
      StepSettles(s, actions[0]);
      RunSettles(Next(s, actions[0]), actions[1..]);
      SettlesTransitive(s.db, Next(s, actions[0]).db, After(s, actions).db);
    }
  }

  /** Once a site is deployed, no run brings it back to CONFIGURED, DEPLOYING or DEPLOY_FAILED, and a task
      that is FINISHED or FAILED stays so. */
  lemma SettledForGood(s: State, actions: seq<Action>)
    requires Reachable(s) && IsRun(s, actions)
    ensures var a, b := s.db, After(s, actions).db;
            (forall x :: 0 <= x < |a.sites| && PastDeploy(a.sites[x].status) ==>
              x < |b.sites| && b.sites[x].status !in {Configured, Deploying, DeployFailed}) &&
            (forall t :: 0 <= t < |a.deployTasks| && a.deployTasks[t].state in {Finished, Failed} ==>
              t < |b.deployTasks| && b.deployTasks[t] == a.deployTasks[t]) &&
            (forall t :: 0 <= t < |a.publishTasks| && a.publishTasks[t].state in {Finished, Failed} ==>
              t < |b.publishTasks| && b.publishTasks[t] == a.publishTasks[t]) &&
            (forall t :: 0 <= t < |a.postTasks| && a.postTasks[t].state in {Finished, Failed} ==>
              t < |b.postTasks| && b.postTasks[t].state == a.postTasks[t].state) &&
            (forall o :: 0 <= o < |a.publishOrders| && a.publishOrders[o].state == Finished ==>
              o < |b.publishOrders| && b.publishOrders[o] == a.publishOrders[o])
  {
    hide Reachable, Inv, IsRun, After;
    ReachableInv(s);
    RunSettles(s, actions);
  }
}

/** What one step leaves to a later one is never lost: the link of a new publish order and the first
    publish order of a deployed site. */
module FollowUps {
  import opened PipelineTypes
  import opened Tables
  import opened Pipeline
  import opened Invariants
  import opened Runs
  import opened StepTables
  import History
  import StepKeeps
  import PublishKeeps
  import PostOrders
  import PostTasks
  import SiteOrders
  import SiteTasks

  /** A publish order that is on no task is announced by a link event that is still to be handled. */
  ghost predicate Announced(db: Db) {
    forall i :: 0 <= i < |db.publishOrders| && db.publishOrders[i].task == NONE ==>
      LinkEvent(db.publishOrders[i].site, db.publishOrders[i].user) in db.links
  }

  ghost predicate HasOrder(db: Db, user: nat) {
    exists i :: 0 <= i < |db.publishOrders| && db.publishOrders[i].user == user
  }

  /** A FINISHED deploy task still owes the first publish order of its user, or the user has one. */
  ghost predicate Ordered(db: Db, deployed: set<int>) {
    forall t :: 0 <= t < |db.deployTasks| && db.deployTasks[t].state == Finished && t !in deployed ==>
      HasOrder(db, db.deployTasks[t].user)
  }

  ghost predicate FollowedUp(s: State) {
    Announced(s.db) && Ordered(s.db, s.deployed) && OnePending(s.db.publishOrders)
  }

  /** At most one publish order of a pair waits: a new one is made only when there is none to reuse. */
  predicate OnePending(orders: seq<PublishOrder>) {
    forall i, j :: 0 <= i < j < |orders| && orders[i].state == Pending && orders[j].state == Pending ==>
      !(orders[i].site == orders[j].site && orders[i].user == orders[j].user)
  }

  /** No order becomes PENDING, or the only new one is alone. */
  lemma StaysOne(a: seq<PublishOrder>, b: seq<PublishOrder>)
    requires OnePending(a) && |a| <= |b| <= |a| + 1
    requires forall i :: 0 <= i < |a| ==>
      b[i].user == a[i].user && b[i].site == a[i].site && (b[i].state == Pending ==> a[i].state == Pending)
    requires |b| > |a| ==> PendingOrderOf(a, b[|a|].site, b[|a|].user) == NONE
    ensures OnePending(b)
  {
  }

  /** Orders stay, on their task if they have one, and no deployment finishes. */
  ghost predicate Keeps(a: Db, b: Db) {
    |a.publishOrders| <= |b.publishOrders| && |a.deployTasks| <= |b.deployTasks| && a.links <= b.links &&
    (OnePending(a.publishOrders) ==> OnePending(b.publishOrders)) &&
    (forall i :: 0 <= i < |a.publishOrders| ==>
      b.publishOrders[i].user == a.publishOrders[i].user && b.publishOrders[i].site == a.publishOrders[i].site &&
      (a.publishOrders[i].task != NONE ==> b.publishOrders[i].task != NONE)) &&
    (forall i :: |a.publishOrders| <= i < |b.publishOrders| ==>
      LinkEvent(b.publishOrders[i].site, b.publishOrders[i].user) in b.links) &&
    (forall t :: 0 <= t < |b.deployTasks| && b.deployTasks[t].state == Finished ==>
      t < |a.deployTasks| && a.deployTasks[t].state == Finished && b.deployTasks[t].user == a.deployTasks[t].user)
  }

  lemma KeepsFollowUps(a: Db, b: Db, deployed: set<int>)
    requires Keeps(a, b) && Announced(a) && Ordered(a, deployed) && OnePending(a.publishOrders)
    ensures Announced(b) && Ordered(b, deployed) && OnePending(b.publishOrders)
  {
    forall t | 0 <= t < |b.deployTasks| && b.deployTasks[t].state == Finished && t !in deployed
      ensures HasOrder(b, b.deployTasks[t].user)
    {
      OrderStays(a, b, b.deployTasks[t].user);
    }
  }

  lemma OrderStays(a: Db, b: Db, user: nat)
    requires Keeps(a, b) && HasOrder(a, user)
    ensures HasOrder(b, user)
  {
    var i :| 0 <= i < |a.publishOrders| && a.publishOrders[i].user == user;
    assert b.publishOrders[i].user == user;
  }

  lemma Untouched(a: Db, b: Db)
    requires b.publishOrders == a.publishOrders && b.deployTasks == a.deployTasks && b.links == a.links
    ensures Keeps(a, b)
  {
  }

  lemma GeneratedKeeps(db: Db, user: nat)
    ensures Keeps(db, SiteOrders.GeneratePublishOrder(db, user).db)
    ensures DefaultSite(db.sites, user) != NONE ==> HasOrder(SiteOrders.GeneratePublishOrder(db, user).db, user)
  {
    var g := SiteOrders.GeneratePublishOrder(db, user);
    if g.order != NONE {
      assert g.db.publishOrders[g.order].user == user;
    }
    if OnePending(db.publishOrders) {
      StaysOne(db.publishOrders, g.db.publishOrders);
    }
  }

  lemma RetryBegunKeeps(db: Db, e: RetryEvent)
    ensures Keeps(db, SiteOrders.BeginRetry(db, e))
  {
    var taken := db.(retries := db.retries - multiset{e});
    GeneratedKeeps(taken, e.user);
    hide SiteOrders.GeneratePublishOrder;
    assert SiteOrders.BeginRetry(db, e).links == SiteOrders.GeneratePublishOrder(taken, e.user).db.links;
  }

  lemma LinkKeeps(db: Db, site: nat, user: nat)
    requires PublishInv(db.sites, db.publishOrders, db.publishTasks)
    requires site < |db.sites| && db.sites[site].user == user
    ensures Keeps(db, SiteTasks.LinkOrGenerate(db, site, user))
  {
    PublishKeeps.LinkedTask(db, site, user);
    PublishKeeps.PendingTask(db.sites, db.publishOrders, db.publishTasks, site, user);
    hide PublishInv, SiteTasks.LinkOrGenerate;
    if OnePending(db.publishOrders) {
      StaysOne(db.publishOrders, SiteTasks.LinkOrGenerate(db, site, user).publishOrders);
    }
  }

  /** The handler puts every order of the pair on a task, so its event is no longer needed. */
  lemma DeliveredFollowUps(db: Db, e: LinkEvent, deployed: set<int>)
    requires Announced(db) && Ordered(db, deployed) && OnePending(db.publishOrders)
    requires PublishInv(db.sites, db.publishOrders, db.publishTasks)
    requires e.site < |db.sites| && db.sites[e.site].user == e.user
    ensures var db' := SiteTasks.LinkOrGenerate(db.(links := db.links - multiset{e}), e.site, e.user);
            Announced(db') && Ordered(db', deployed) && OnePending(db'.publishOrders)
  {
    var taken := db.(links := db.links - multiset{e});
    var db' := SiteTasks.LinkOrGenerate(taken, e.site, e.user);
    PublishKeeps.LinkedTask(taken, e.site, e.user);
    PublishKeeps.PendingTask(db.sites, db.publishOrders, db.publishTasks, e.site, e.user);
    UnlinkedIsPending(db);
    LinkKeeps(taken, e.site, e.user);
    hide PublishInv, SiteTasks.LinkOrGenerate;
    forall t | 0 <= t < |db'.deployTasks| && db'.deployTasks[t].state == Finished && t !in deployed
      ensures HasOrder(db', db'.deployTasks[t].user)
    {
      assert HasOrder(db, db.deployTasks[t].user);
      assert HasOrder(taken, db.deployTasks[t].user);
      OrderStays(taken, db', db'.deployTasks[t].user);
    }
  }

  lemma UnlinkedIsPending(db: Db)
    requires PublishInv(db.sites, db.publishOrders, db.publishTasks)
    ensures forall i :: 0 <= i < |db.publishOrders| && db.publishOrders[i].task == NONE ==> db.publishOrders[i].state == Pending
  {
    forall i | 0 <= i < |db.publishOrders| && db.publishOrders[i].task == NONE ensures db.publishOrders[i].state == Pending {
      assert PublishOrderAgrees(db.publishTasks, db.publishOrders[i]);
    }
  }

  lemma PublishMovesKeep(db: Db, t: int, state: TaskState, status: SiteStatus)
    requires state != Pending
    ensures Keeps(db, SiteTasks.MovePublish(db, t, state, status))
  {
    if OnePending(db.publishOrders) {
      StaysOne(db.publishOrders, SiteTasks.MovePublish(db, t, state, status).publishOrders);
    }
  }

  lemma DeployMovesKeep(db: Db, d: int, site: nat, user: nat)
    ensures 0 <= d < |db.deployOrders| ==> Keeps(db, SiteTasks.StartDeploy(db, d, site, user))
    ensures Keeps(db, SiteTasks.FailDeploy(db, d))
  {
  }

  lemma FailKeeps(db: Db, j: Job)
    ensures Keeps(db, FailTask(db, j))
  {
    hide Keeps;
    match j.kind
    case DeployJob => DeployMovesKeep(db, j.task, 0, 0);
    case PostJob => Untouched(db, PostTasks.FailTask(db, j.task));
    case PublishJob => PublishMovesKeep(db, j.task, Failed, PublishFailed);
  }

  lemma OutsideFollows(s: State, a: OutsideAction)
    requires Inv(s) && FollowedUp(s) && OutsideEnabled(s, a)
    ensures FollowedUp(OutsideNext(s, a))
  {
    hide Inv, PublishInv, Announced, Ordered, OnePending, Keeps, SiteOrders.GeneratePublishOrder, SiteOrders.BeginRetry,
         SiteOrders.EndRetry, SiteOrders.SaveDeployOrder, SiteTasks.LinkOrGenerate, PostOrders.RetryPost, PostOrders.SavePost;
    History.Parts(s);
    match a
    case ARequestPublish(user) =>
      GeneratedKeeps(s.db, user);
      KeepsFollowUps(s.db, OutsideNext(s, a).db, s.deployed);
    case ADeliverLink(e) => DeliveredFollowUps(s.db, e, s.deployed);
    case ABeginRetry(e) =>
      RetryBegunKeeps(s.db, e);
      KeepsFollowUps(s.db, OutsideNext(s, a).db, s.deployed);
    case _ =>
      OutsideUntouched(s, a);
      KeepsFollowUps(s.db, OutsideNext(s, a).db, s.deployed);
  }

  lemma OutsideUntouched(s: State, a: OutsideAction)
    requires OutsideEnabled(s, a) && !a.ARequestPublish? && !a.ADeliverLink? && !a.ABeginRetry?
    ensures Keeps(s.db, OutsideNext(s, a).db) && OutsideNext(s, a).deployed == s.deployed
  {
    hide Keeps;
    Untouched(s.db, OutsideNext(s, a).db);
  }

  lemma DispatcherFollows(s: State, a: DispatcherAction)
    requires Inv(s) && FollowedUp(s) && DispatcherEnabled(s, a)
    ensures FollowedUp(DispatcherNext(s, a))
  {
    hide Inv, PublishInv, Announced, Ordered, OnePending, Keeps, FailTask, SiteTasks.LinkOrGenerate, SiteTasks.StartDeploy,
         SiteTasks.DoingPublish, DispatcherNext, FirstDeploy, FirstPublish, FirstPost;
    DispatcherDb(s, a);
    SameDeployed(s, a);
    History.Parts(s);
    Untouched(s.db, s.db);
    match a {
      case AStartDeploy =>
        var o := s.db.deployOrders[s.phase.choice.d];
        DeployMovesKeep(s.db, s.phase.choice.d, o.site, o.user);
      case ASweep => Untouched(s.db, PostTasks.Generate(s.db, s.db.posts[s.phase.choice.p].user));
      case AMarkPosts => Untouched(s.db, PostTasks.DoingTask(s.db, s.phase.postTask));
      case ALinkForPublish =>
        StepKeeps.ChosenSite(s, s.phase.choice.o);
        var o := s.db.publishOrders[s.phase.choice.o];
        LinkKeeps(s.db, o.site, o.user);
      case AMarkPublish => MarkKeeps(s.db, s.db.publishOrders[s.phase.order].task);
      case AAbandon => FailKeeps(s.db, s.phase.job);
      case _ =>
    }
    KeepsFollowUps(s.db, DispatcherNext(s, a).db, s.deployed);
  }

  lemma MarkKeeps(db: Db, t: int)
    ensures Keeps(db, SiteTasks.DoingPublish(db, t))
  {
    PublishMovesKeep(db, t, Doing, Publishing);
  }

  lemma SameDeployed(s: State, a: DispatcherAction)
    requires DispatcherEnabled(s, a)
    ensures DispatcherNext(s, a).deployed == s.deployed
  {
    hide FirstDeploy, FirstPublish, FirstPost;
  }

  /** A finished deployment owes its publish order until the order is there. */
  lemma DeployFollows(s: State, t: int)
    requires FollowedUp(s)
    ensures FollowedUp(CompleteDeploy(s, t))
  {
  }

  lemma FirstOrderFollows(s: State, t: int)
    requires FollowedUp(s) && 0 <= t < |s.db.deployTasks| && DefaultSite(s.db.sites, s.db.deployTasks[t].user) != NONE
    ensures FollowedUp(OrderFirstPublish(s, t))
  {
    hide Announced, Ordered, OnePending, Keeps, SiteOrders.GeneratePublishOrder;
    var db' := SiteOrders.GeneratePublishOrder(s.db, s.db.deployTasks[t].user).db;
    GeneratedKeeps(s.db, s.db.deployTasks[t].user);
    KeepsFollowUps(s.db, db', s.deployed);
    Discharged(s.db, db', s.deployed, t);
  }

  lemma Discharged(a: Db, b: Db, deployed: set<int>, t: int)
    requires Keeps(a, b) && Ordered(b, deployed) && 0 <= t < |a.deployTasks| && HasOrder(b, a.deployTasks[t].user)
    ensures Ordered(b, deployed - {t})
  {
  }

  lemma DeployerHasSite(s: State, t: int)
    requires Inv(s) && 0 <= t < |s.db.deployTasks|
    ensures DefaultSite(s.db.sites, s.db.deployTasks[t].user) != NONE
  {
    assert s.db.sites[s.db.deployTasks[t].site].user == s.db.deployTasks[t].user;
  }

  lemma WorkerFollows(s: State, a: WorkerAction)
    requires Inv(s) && FollowedUp(s) && WorkerEnabled(s, a)
    ensures FollowedUp(WorkerNext(s, a))
  {
    hide Inv, FollowedUp, Keeps, FailTask, PostTasks.FinishTask, SiteTasks.FinishPublish, PostOrders.FailSubmit,
         SiteOrders.GeneratePublishOrder, CompleteDeploy, OrderFirstPublish;
    match a
    case AStartJob(_) => Untouched(s.db, s.db); StateFollows(s, WorkerNext(s, a));
    case AReport(_, p) => ReportKeeps(s.db, p); StateFollows(s, WorkerNext(s, a));
    case ACompleteDeploy(t) => DeployFollows(s, t);
    case AOrderFirstPublish(t) => DeployerHasSite(s, t); FirstOrderFollows(s, t);
    case ACompletePosts(t) => GeneratedKeeps(s.db, s.db.postTasks[t].user); StateFollows(s, WorkerNext(s, a));
    case AFinishPosts(t) => FinishKeeps(s.db, t, s.closing[t]); StateFollows(s, WorkerNext(s, a));
    case ACompletePublish(t) => EndKeeps(s.db, t); StateFollows(s, WorkerNext(s, a));
    case AFailJob(j) => FailKeeps(s.db, j); StateFollows(s, WorkerNext(s, a));
  }

  lemma StateFollows(s: State, s': State)
    requires FollowedUp(s) && Keeps(s.db, s'.db) && s'.deployed == s.deployed
    ensures FollowedUp(s')
  {
    hide Keeps, Announced, Ordered, OnePending;
    KeepsFollowUps(s.db, s'.db, s.deployed);
  }

  lemma ReportKeeps(db: Db, p: int)
    ensures Keeps(db, PostOrders.FailSubmit(db, p))
  {
    Untouched(db, PostOrders.FailSubmit(db, p));
  }

  lemma FinishKeeps(db: Db, t: int, order: int)
    ensures Keeps(db, PostTasks.FinishTask(db, t, order))
  {
    Untouched(db, PostTasks.FinishTask(db, t, order));
  }

  lemma EndKeeps(db: Db, t: int)
    ensures Keeps(db, SiteTasks.FinishPublish(db, t))
  {
    PublishMovesKeep(db, t, Finished, Published);
  }

  lemma StepFollows(s: State, a: Action)
    requires Inv(s) && FollowedUp(s) && Enabled(s, a)
    ensures FollowedUp(Next(s, a))
  {
    hide Inv, FollowedUp, OutsideEnabled, OutsideNext, DispatcherEnabled, DispatcherNext, WorkerEnabled, WorkerNext;
    match a
    case Outside(o) => OutsideFollows(s, o);
    case Dispatcher(d) => DispatcherFollows(s, d);
    case Worker(w) => WorkerFollows(s, w);
  }

  lemma {:induction false} RunFollows(s: State, actions: seq<Action>)
    requires Inv(s) && FollowedUp(s) && IsRun(s, actions)
    ensures FollowedUp(After(s, actions))
    decreases |actions|
  {
    if actions != [] {
      hide Inv, FollowedUp, Enabled, Next;
      StepInv(s, actions[0]);
      StepFollows(s, actions[0]);
      RunFollows(Next(s, actions[0]), actions[1..]);
    }
  }

  /** In every reachable state a publish order without task is announced by an undelivered link event, the
      user of a finished deployment has a publish order unless it is still owed, and no two publish orders
      of a pair wait. */
  lemma NothingIsOmitted(s: State)
    requires Reachable(s)
    ensures Announced(s.db) && Ordered(s.db, s.deployed) && OnePending(s.db.publishOrders)
  {
    var wipLimit: nat, concurrency: nat, actions :|
      IsRun(Start(wipLimit, concurrency), actions) && After(Start(wipLimit, concurrency), actions) == s;
    StartInv(wipLimit, concurrency);
    hide Inv, Start, IsRun, After;
    StartFollows(wipLimit, concurrency);
    RunFollows(Start(wipLimit, concurrency), actions);
  }

  lemma StartFollows(wipLimit: nat, concurrency: nat)
    ensures FollowedUp(Start(wipLimit, concurrency))
  {
  }
}

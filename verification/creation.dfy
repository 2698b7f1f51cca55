/** Rows are created in the order of time: in every reachable state a row is not older than the rows before it
    in its table, and no row is newer than the clock. So the newest row of a table is its youngest. */
module Creation {
  import opened PipelineTypes
  import opened Tables
  import opened Pipeline
  import opened Invariants
  import opened Runs
  import opened StepTables
  import History
  import PostOrders
  import PostTasks
  import SiteOrders
  import SiteTasks

  predicate Ordered(times: seq<nat>, clock: nat) {
    (forall i, j :: 0 <= i < j < |times| ==> times[i] <= times[j]) && forall i :: 0 <= i < |times| ==> times[i] <= clock
  }

  function PostTimes(posts: seq<PostOrder>): (r: seq<nat>)
    ensures |r| == |posts| && forall i :: 0 <= i < |posts| ==> r[i] == posts[i].createdAt
  {
    seq(|posts|, i requires 0 <= i < |posts| => posts[i].createdAt)
  }

  function DeployTimes(orders: seq<DeployOrder>): (r: seq<nat>)
    ensures |r| == |orders| && forall i :: 0 <= i < |orders| ==> r[i] == orders[i].createdAt
  {
    seq(|orders|, i requires 0 <= i < |orders| => orders[i].createdAt)
  }

  function PublishTimes(orders: seq<PublishOrder>): (r: seq<nat>)
    ensures |r| == |orders| && forall i :: 0 <= i < |orders| ==> r[i] == orders[i].createdAt
  {
    seq(|orders|, i requires 0 <= i < |orders| => orders[i].createdAt)
  }

  predicate InCreationOrder(db: Db) {
    Ordered(PostTimes(db.posts), db.clock) && Ordered(DeployTimes(db.deployOrders), db.clock) &&
    Ordered(PublishTimes(db.publishOrders), db.clock)
  }

  /** The clock only goes forward, and what is new was created when the step was taken. */
  predicate CreatesNow(a: Db, b: Db) {
    a.clock <= b.clock && |a.posts| <= |b.posts| && |a.deployOrders| <= |b.deployOrders| &&
    |a.publishOrders| <= |b.publishOrders| &&
    (forall i :: |a.posts| <= i < |b.posts| ==> b.posts[i].createdAt == a.clock) &&
    (forall i :: |a.deployOrders| <= i < |b.deployOrders| ==> b.deployOrders[i].createdAt == a.clock) &&
    (forall i :: |a.publishOrders| <= i < |b.publishOrders| ==> b.publishOrders[i].createdAt == a.clock)
  }

  predicate SameSizes(a: Db, b: Db) {
    b.clock == a.clock && |b.posts| == |a.posts| && |b.deployOrders| == |a.deployOrders| &&
    |b.publishOrders| == |a.publishOrders|
  }

  lemma SavedNow(db: Db, user: nat, site: int)
    ensures CreatesNow(db, PostOrders.SavePost(db, user, Pending, Pending))
    ensures CreatesNow(db, SiteOrders.SaveDeployOrder(db, user, site))
  {
  }

  lemma GeneratedNow(db: Db, user: nat)
    ensures CreatesNow(db, SiteOrders.GeneratePublishOrder(db, user).db)
  {
  }

  lemma BegunNow(db: Db, e: RetryEvent)
    ensures CreatesNow(db, SiteOrders.BeginRetry(db, e))
  {
    GeneratedNow(db.(retries := db.retries - multiset{e}), e.user);
    hide SiteOrders.GeneratePublishOrder;
  }

  lemma RepointedNow(db: Db, r: Repoint)
    ensures SameSizes(db, SiteOrders.EndRetry(db, r))
  {
  }

  lemma RetriedSizes(db: Db, user: nat, p: int)
    ensures var r := PostOrders.RetryPost(db, user, p); r.Retried? ==> SameSizes(db, r.db)
  {
  }

  lemma RowSizes(db: Db, p: int)
    ensures SameSizes(db, PostOrders.BeginCertificate(db, p)) && SameSizes(db, PostOrders.StoreCertificate(db, p))
    ensures SameSizes(db, PostOrders.LoseCertificate(db, p)) && SameSizes(db, PostOrders.FailSubmit(db, p))
  {
  }

  lemma LinkSizes(db: Db, site: nat, user: nat)
    ensures SameSizes(db, SiteTasks.LinkOrGenerate(db, site, user))
  {
  }

  lemma BatchSizes(db: Db, user: nat, t: int, order: int)
    ensures SameSizes(db, PostTasks.Generate(db, user)) && SameSizes(db, PostTasks.DoingTask(db, t))
    ensures SameSizes(db, PostTasks.FinishTask(db, t, order)) && SameSizes(db, PostTasks.FailTask(db, t))
  {
  }

  lemma MoveSizes(db: Db, t: int, state: TaskState, status: SiteStatus)
    ensures SameSizes(db, SiteTasks.MovePublish(db, t, state, status))
    ensures SameSizes(db, SiteTasks.CloseDeploy(db, t, state, status))
  {
  }

  lemma StartSizes(db: Db, d: int, site: nat, user: nat)
    requires 0 <= d < |db.deployOrders|
    ensures SameSizes(db, SiteTasks.StartDeploy(db, d, site, user))
  {
  }

  lemma SameCreates(a: Db, b: Db)
    requires SameSizes(a, b)
    ensures CreatesNow(a, b)
  {
  }

  lemma FailSizes(db: Db, j: Job)
    ensures SameSizes(db, FailTask(db, j))
  {
    hide PostTasks.FailTask, SiteTasks.CloseDeploy, SiteTasks.MovePublish;
    match j.kind
    case DeployJob => MoveSizes(db, j.task, Failed, DeployFailed);
    case PostJob => BatchSizes(db, 0, j.task, 0);
    case PublishJob => MoveSizes(db, j.task, Failed, PublishFailed);
  }

  lemma OutsideCreates(s: State, a: OutsideAction)
    requires OutsideEnabled(s, a)
    ensures CreatesNow(s.db, OutsideNext(s, a).db)
  {
    hide SameSizes, SiteOrders.SaveDeployOrder, SiteOrders.GeneratePublishOrder, SiteTasks.LinkOrGenerate,
         SiteOrders.EndRetry, SiteOrders.BeginRetry, PostOrders.RetryPost, PostOrders.SavePost,
         PostOrders.BeginCertificate, PostOrders.StoreCertificate, PostOrders.LoseCertificate;
    var after := OutsideNext(s, a).db;
    match a
    case ATick =>
    case ACreateSite(_) =>
    case ASavePost(user) => SavedNow(s.db, user, 0);
    case ARequestDeploy(user, site) => SavedNow(s.db, user, site);
    case ARequestPublish(user) => GeneratedNow(s.db, user);
    case ARetry(user, p) => RetriedSizes(s.db, user, p); if after != s.db { SameCreates(s.db, after); }
    case ABeginCertificate(p) => RowSizes(s.db, p); SameCreates(s.db, after);
    case AStoreCertificate(p) => RowSizes(s.db, p); SameCreates(s.db, after);
    case ALoseCertificate(p) => RowSizes(s.db, p); SameCreates(s.db, after);
    case ADeliverLink(link) =>
      var taken := s.db.(links := s.db.links - multiset{link});
      LinkSizes(taken, link.site, link.user);
      SameCreates(taken, after);
    case ABeginRetry(retry) => BegunNow(s.db, retry);
    case AEndRetry(repoint) => RepointedNow(s.db, repoint); SameCreates(s.db, after);
  }

  lemma DispatcherCreates(s: State, a: DispatcherAction)
    requires Inv(s) && DispatcherEnabled(s, a)
    ensures CreatesNow(s.db, DispatcherNext(s, a).db)
  {
    hide Inv, SameSizes, DispatcherNext, FailTask, PostTasks.Generate, PostTasks.DoingTask, SiteTasks.StartDeploy,
         SiteTasks.LinkOrGenerate, SiteTasks.MovePublish, FirstDeploy, FirstPublish, FirstPost;
    DispatcherDb(s, a);
    var after := DispatcherNext(s, a).db;
    if after != s.db {
      match a
      case AStartDeploy =>
        var o := s.db.deployOrders[s.phase.choice.d];
        StartSizes(s.db, s.phase.choice.d, o.site, o.user);
      case ASweep => BatchSizes(s.db, s.db.posts[s.phase.choice.p].user, 0, 0);
      case AMarkPosts => BatchSizes(s.db, 0, s.phase.postTask, 0);
      case ALinkForPublish =>
        var o := s.db.publishOrders[s.phase.choice.o];
        LinkSizes(s.db, o.site, o.user);
      case AMarkPublish => MoveSizes(s.db, s.db.publishOrders[s.phase.order].task, Doing, Publishing);
      case AAbandon => FailSizes(s.db, s.phase.job);
      case _ =>
    }
    if after != s.db { SameCreates(s.db, after); }
  }

  lemma WorkerCreates(s: State, a: WorkerAction)
    requires WorkerEnabled(s, a)
    ensures CreatesNow(s.db, WorkerNext(s, a).db)
  {
    hide SameSizes, WorkerNext, FailTask, PostTasks.FinishTask, SiteTasks.CloseDeploy, SiteTasks.MovePublish,
         SiteOrders.GeneratePublishOrder, PostOrders.FailSubmit;
    WorkerDb(s, a);
    var after := WorkerNext(s, a).db;
    match a
    case AStartJob(_) =>
    case AReport(_, p) => RowSizes(s.db, p); SameCreates(s.db, after);
    case ACompleteDeploy(t) => MoveSizes(s.db, t, Finished, Deployed); SameCreates(s.db, after);
    case AOrderFirstPublish(t) => GeneratedNow(s.db, s.db.deployTasks[t].user);
    case ACompletePosts(t) => GeneratedNow(s.db, s.db.postTasks[t].user);
    case AFinishPosts(t) => BatchSizes(s.db, 0, t, s.closing[t]); SameCreates(s.db, after);
    case ACompletePublish(t) => MoveSizes(s.db, t, Finished, Published); SameCreates(s.db, after);
    case AFailJob(j) => FailSizes(s.db, j); SameCreates(s.db, after);
  }

  lemma StepCreates(s: State, a: Action)
    requires Inv(s) && Enabled(s, a)
    ensures CreatesNow(s.db, Next(s, a).db)
  {
    hide Inv, CreatesNow, OutsideEnabled, OutsideNext, DispatcherEnabled, DispatcherNext, WorkerEnabled, WorkerNext;
    match a
    case Outside(o) => OutsideCreates(s, o);
    case Dispatcher(d) => DispatcherCreates(s, d);
    case Worker(w) => WorkerCreates(s, w);
  }

  lemma Extended(a: seq<nat>, b: seq<nat>, now: nat, later: nat)
    requires Ordered(a, now) && now <= later && |a| <= |b|
    requires forall i :: 0 <= i < |a| ==> b[i] == a[i]
    requires forall i :: |a| <= i < |b| ==> b[i] == now
    ensures Ordered(b, later)
  {
  }

  lemma StaysInOrder(a: Db, b: Db)
    requires InCreationOrder(a) && CreatesNow(a, b) && History.Settles(a, b)
    ensures InCreationOrder(b)
  {
    hide Ordered;
    forall i | 0 <= i < |a.deployOrders| ensures b.deployOrders[i].createdAt == a.deployOrders[i].createdAt {
      assert b.deployOrders[i].(state := a.deployOrders[i].state, task := a.deployOrders[i].task) == a.deployOrders[i];
    }
    forall i | 0 <= i < |a.publishOrders| ensures b.publishOrders[i].createdAt == a.publishOrders[i].createdAt {
      assert b.publishOrders[i].(state := a.publishOrders[i].state, task := a.publishOrders[i].task) == a.publishOrders[i];
    }
    Extended(PostTimes(a.posts), PostTimes(b.posts), a.clock, b.clock);
    Extended(DeployTimes(a.deployOrders), DeployTimes(b.deployOrders), a.clock, b.clock);
    Extended(PublishTimes(a.publishOrders), PublishTimes(b.publishOrders), a.clock, b.clock);
  }

  lemma {:induction false} RunInOrder(s: State, actions: seq<Action>)
    requires Inv(s) && InCreationOrder(s.db) && IsRun(s, actions)
    ensures InCreationOrder(After(s, actions).db)
    decreases |actions|
  {
    if actions != [] {
      hide Inv, InCreationOrder, CreatesNow, History.Settles, Enabled, Next;
      StepInv(s, actions[0]);
      StepCreates(s, actions[0]);
      History.StepSettles(s, actions[0]);
      StaysInOrder(s.db, Next(s, actions[0]).db);
      RunInOrder(Next(s, actions[0]), actions[1..]);
    }
  }

  /** In every reachable state each table is in the order of creation, and nothing was created after now. */
  lemma RowsInCreationOrder(s: State)
    requires Reachable(s)
    ensures forall i, j :: 0 <= i <= j < |s.db.posts| ==> s.db.posts[i].createdAt <= s.db.posts[j].createdAt <= s.db.clock
    ensures forall i, j :: 0 <= i <= j < |s.db.deployOrders| ==>
      s.db.deployOrders[i].createdAt <= s.db.deployOrders[j].createdAt <= s.db.clock
    ensures forall i, j :: 0 <= i <= j < |s.db.publishOrders| ==>
      s.db.publishOrders[i].createdAt <= s.db.publishOrders[j].createdAt <= s.db.clock
  {
    var wipLimit: nat, concurrency: nat, actions :|
      IsRun(Start(wipLimit, concurrency), actions) && After(Start(wipLimit, concurrency), actions) == s;
    StartInv(wipLimit, concurrency);
    hide Inv, InCreationOrder, IsRun, After;
    StartInOrder(wipLimit, concurrency);
    RunInOrder(Start(wipLimit, concurrency), actions);
    OrderMeans(s.db);
  }

  lemma StartInOrder(wipLimit: nat, concurrency: nat)
    ensures InCreationOrder(Start(wipLimit, concurrency).db)
  {
  }

  lemma OrderMeans(db: Db)
    requires InCreationOrder(db)
    ensures forall i, j :: 0 <= i <= j < |db.posts| ==> db.posts[i].createdAt <= db.posts[j].createdAt <= db.clock
    ensures forall i, j :: 0 <= i <= j < |db.deployOrders| ==>
      db.deployOrders[i].createdAt <= db.deployOrders[j].createdAt <= db.clock
    ensures forall i, j :: 0 <= i <= j < |db.publishOrders| ==>
      db.publishOrders[i].createdAt <= db.publishOrders[j].createdAt <= db.clock
  {
    var posts, deploys, publishes := PostTimes(db.posts), DeployTimes(db.deployOrders), PublishTimes(db.publishOrders);
    forall i, j | 0 <= i <= j < |db.posts| ensures db.posts[i].createdAt <= db.posts[j].createdAt <= db.clock {
      assert posts[i] <= posts[j] <= db.clock;
    }
    forall i, j | 0 <= i <= j < |db.deployOrders|
      ensures db.deployOrders[i].createdAt <= db.deployOrders[j].createdAt <= db.clock
    {
      assert deploys[i] <= deploys[j] <= db.clock;
    }
    forall i, j | 0 <= i <= j < |db.publishOrders|
      ensures db.publishOrders[i].createdAt <= db.publishOrders[j].createdAt <= db.clock
    {
      assert publishes[i] <= publishes[j] <= db.clock;
    }
  }

  /** A publish order that is requested now is the youngest of all orders and posts. */
  lemma NewOrderIsYoungest(s: State, user: nat)
    requires Reachable(s) && DefaultSite(s.db.sites, user) != NONE
    ensures var g := SiteOrders.GeneratePublishOrder(s.db, user);
            g.db.publishOrders != s.db.publishOrders ==>
              0 <= g.order < |g.db.publishOrders| && var now := g.db.publishOrders[g.order].createdAt;
              now == s.db.clock &&
              (forall p :: p in s.db.posts ==> p.createdAt <= now) &&
              (forall o :: o in s.db.deployOrders ==> o.createdAt <= now) &&
              (forall o :: o in s.db.publishOrders ==> o.createdAt <= now)
  {
    RowsInCreationOrder(s);
    hide Reachable;
  }
}

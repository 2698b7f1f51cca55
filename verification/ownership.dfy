/** A post is published with its own user's orders and tasks, and what a retry without post task comes to. */
module Ownership {
  import opened PipelineTypes
  import opened Tables
  import opened Pipeline
  import opened Invariants
  import opened Runs
  import opened StepTables
  import History
  import StepKeeps
  import DbKeeps
  import PublishKeeps
  import PostOrders
  import PostTasks
  import SiteOrders
  import SiteTasks

  predicate OwnLinks(orders: seq<PublishOrder>, tasks: seq<PublishTask>, p: PostOrder) {
    (0 <= p.publishOrder < |orders| ==> orders[p.publishOrder].user == p.user) &&
    (0 <= p.publishTask < |tasks| ==> tasks[p.publishTask].user == p.user)
  }

  /** Every post points at publish orders and tasks of its own user. */
  predicate Owned(db: Db) {
    forall i :: 0 <= i < |db.posts| ==> OwnLinks(db.publishOrders, db.publishTasks, db.posts[i])
  }

  /** The retry of a failed publish of a post that has no post task. */
  predicate Unanchored(post: PostOrder) {
    post.certificate != Failed && post.submit != Failed && post.publish == Failed && post.postTask == NONE
  }

  /** A submitted post without post task is published and has no publish links: it is the default post that
      the first deployment of a site saves. */
  predicate DefaultOnly(p: PostOrder) {
    p.submit != Nothing &&
    (p.submit == Finished && p.postTask == NONE ==>
      p.publishOrder == NONE && p.publishTask == NONE && p.publish == Finished)
  }

  predicate RowOwn(orders: seq<PublishOrder>, tasks: seq<PublishTask>, p: PostOrder) {
    OwnLinks(orders, tasks, p) && DefaultOnly(p)
  }

  predicate Own(db: Db) {
    forall i :: 0 <= i < |db.posts| ==> RowOwn(db.publishOrders, db.publishTasks, db.posts[i])
  }

  // ---- operations ----

  lemma Untouched(a: Db, b: Db)
    requires Own(a) && b.posts == a.posts && b.publishOrders == a.publishOrders && b.publishTasks == a.publishTasks
    ensures Own(b)
  {
  }

  /** Links are kept, or a link to an own order or to no order is set. */
  lemma Relinked(a: Db, b: Db)
    requires Own(a) && |b.posts| == |a.posts|
    requires |b.publishOrders| == |a.publishOrders| && |b.publishTasks| == |a.publishTasks|
    requires forall i :: 0 <= i < |a.publishOrders| ==> b.publishOrders[i].user == a.publishOrders[i].user
    requires forall t :: 0 <= t < |a.publishTasks| ==> b.publishTasks[t].user == a.publishTasks[t].user
    requires forall i :: 0 <= i < |a.posts| ==>
      b.posts[i].user == a.posts[i].user && b.posts[i].publishTask in {a.posts[i].publishTask, NONE} &&
      (b.posts[i].publishOrder in {a.posts[i].publishOrder, NONE} ||
       (0 <= b.posts[i].publishOrder < |a.publishOrders| &&
        a.publishOrders[b.posts[i].publishOrder].user == a.posts[i].user))
    requires forall i :: 0 <= i < |a.posts| ==> DefaultOnly(a.posts[i]) ==> DefaultOnly(b.posts[i])
    ensures Own(b)
  {
    forall i | 0 <= i < |b.posts| ensures RowOwn(b.publishOrders, b.publishTasks, b.posts[i]) {
      assert RowOwn(a.publishOrders, a.publishTasks, a.posts[i]);
    }
  }

  lemma NewPost(db: Db, user: nat, submit: TaskState, publish: TaskState)
    requires Own(db) && submit in {Pending, Finished} && publish == submit
    ensures Own(PostOrders.SavePost(db, user, submit, publish))
  {
  }

  lemma DeploySaved(db: Db, user: nat, site: int)
    requires Own(db)
    ensures Own(SiteOrders.SaveDeployOrder(db, user, site))
  {
    NewPost(db, user, Finished, Finished);
    hide Own;
    var db' := SiteOrders.SaveDeployOrder(db, user, site);
    Untouched(if db'.posts == db.posts then db else PostOrders.SavePost(db, user, Finished, Finished), db');
  }

  lemma Generated(db: Db, user: nat)
    requires Own(db) && PostInv(db.publishOrders, db.publishTasks, db.posts, db.postTasks)
    ensures Own(SiteOrders.GeneratePublishOrder(db, user).db)
  {
    var db' := SiteOrders.GeneratePublishOrder(db, user).db;
    forall i | 0 <= i < |db.posts| ensures RowOwn(db'.publishOrders, db'.publishTasks, db'.posts[i]) {
      assert PostOk(db.publishOrders, db.publishTasks, db.postTasks, db.posts[i]);
      assert RowOwn(db.publishOrders, db.publishTasks, db.posts[i]);
    }
  }

  lemma Retried(db: Db, user: nat, p: int)
    requires Own(db)
    ensures var r := PostOrders.RetryPost(db, user, p); r.Retried? ==> Own(r.db)
  {
    var r := PostOrders.RetryPost(db, user, p);
    if r.Retried? {
      assert RowOwn(db.publishOrders, db.publishTasks, db.posts[p]);
      Relinked(db, r.db);
    }
  }

  lemma OnePost(db: Db, p: int)
    requires Own(db) && 0 <= p < |db.posts|
    ensures Own(PostOrders.BeginCertificate(db, p)) && Own(PostOrders.StoreCertificate(db, p))
    ensures Own(PostOrders.LoseCertificate(db, p)) && Own(PostOrders.FailSubmit(db, p))
  {
    hide Own;
    Relinked(db, PostOrders.BeginCertificate(db, p));
    Relinked(db, PostOrders.StoreCertificate(db, p));
    Relinked(db, PostOrders.LoseCertificate(db, p));
    Relinked(db, PostOrders.FailSubmit(db, p));
  }

  lemma Linked(db: Db, site: nat, user: nat)
    requires Own(db) && PublishInv(db.sites, db.publishOrders, db.publishTasks)
    requires PostInv(db.publishOrders, db.publishTasks, db.posts, db.postTasks)
    requires site < |db.sites| && db.sites[site].user == user
    ensures Own(SiteTasks.LinkOrGenerate(db, site, user))
  {
    hide PublishInv, PostInv, Own, SiteTasks.LinkOrGenerate;
    var t := LatestTaskOf(PublishKeeps.WithPending(db.publishTasks, site, user), site, user);
    PublishKeeps.LinkedTask(db, site, user);
    PublishKeeps.PendingTask(db.sites, db.publishOrders, db.publishTasks, site, user);
    var db' := SiteTasks.LinkOrGenerate(db, site, user);
    OrdersOwned(db', t);
    LinkedOwn(db, db', t);
  }

  /** Posts are put on a task of their own user. */
  lemma LinkedOwn(a: Db, b: Db, t: int)
    requires Own(a) && PostInv(a.publishOrders, a.publishTasks, a.posts, a.postTasks)
    requires |b.publishOrders| == |a.publishOrders| && |a.publishTasks| <= |b.publishTasks| && 0 <= t < |b.publishTasks|
    requires forall i :: 0 <= i < |a.publishOrders| ==> b.publishOrders[i].user == a.publishOrders[i].user
    requires forall u :: 0 <= u < |a.publishTasks| ==> b.publishTasks[u] == a.publishTasks[u]
    requires b.posts == UpdatePosts(a.posts, UnpublishedOfOrders(OrdersOfTask(b.publishOrders, t)), SetPublishTask(t))
    requires forall i :: i in OrdersOfTask(b.publishOrders, t) ==>
      0 <= i < |b.publishOrders| && b.publishOrders[i].user == b.publishTasks[t].user
    ensures Own(b)
  {
    forall i | 0 <= i < |b.posts| ensures RowOwn(b.publishOrders, b.publishTasks, b.posts[i]) {
      assert PostOk(a.publishOrders, a.publishTasks, a.postTasks, a.posts[i]);
      assert RowOwn(a.publishOrders, a.publishTasks, a.posts[i]);
    }
  }

  lemma OrdersOwned(db: Db, t: int)
    requires PublishInv(db.sites, db.publishOrders, db.publishTasks) && 0 <= t < |db.publishTasks|
    ensures forall i :: i in OrdersOfTask(db.publishOrders, t) ==>
      0 <= i < |db.publishOrders| && db.publishOrders[i].user == db.publishTasks[t].user
  {
    DbKeeps.OrdersUser(db, t);
  }

  lemma RetryBegun(db: Db, e: RetryEvent)
    requires Own(db) && e in db.retries && PostInv(db.publishOrders, db.publishTasks, db.posts, db.postTasks)
    ensures Own(SiteOrders.BeginRetry(db, e))
  {
    var taken := db.(retries := db.retries - multiset{e});
    Generated(taken, e.user);
    hide SiteOrders.GeneratePublishOrder, RowOwn;
  }

  /** Re-pointing keeps the links within the users exactly when it has no post task to work on, or the posts
      that have the post task all belong to the order's user. */
  lemma RepointOwnsIff(db: Db, r: Repoint)
    requires Owned(db) && r.order < |db.publishOrders|
    ensures Owned(SiteOrders.EndRetry(db, r)) <==>
      r.postTask == NONE ||
      forall i :: 0 <= i < |db.posts| && db.posts[i].postTask == r.postTask ==>
        db.posts[i].user == db.publishOrders[r.order].user
  {
    var db' := SiteOrders.EndRetry(db, r);
    if r.postTask != NONE {
      forall i | 0 <= i < |db.posts|
        ensures OwnLinks(db'.publishOrders, db'.publishTasks, db'.posts[i]) <==>
          (db.posts[i].postTask == r.postTask ==> db.posts[i].user == db.publishOrders[r.order].user)
      {
        assert OwnLinks(db.publishOrders, db.publishTasks, db.posts[i]);
      }
    }
  }

  lemma Repointed(db: Db, r: Repoint)
    requires Own(db) && EventsOk(db) && r in db.repoints
    requires PostInv(db.publishOrders, db.publishTasks, db.posts, db.postTasks)
    ensures Own(SiteOrders.EndRetry(db, r))
  {
    forall i | 0 <= i < |db.posts| && db.posts[i].postTask == r.postTask != NONE
      ensures db.posts[i].user == db.publishOrders[r.order].user
    {
      assert PostOk(db.publishOrders, db.publishTasks, db.postTasks, db.posts[i]);
    }
    hide PostInv, EventsOk, Own;
    Relinked(db, SiteOrders.EndRetry(db, r));
  }

  lemma PostTaskMoves(db: Db, user: nat, t: int)
    requires Own(db)
    ensures Own(PostTasks.Generate(db, user)) && Own(PostTasks.DoingTask(db, t)) && Own(PostTasks.FailTask(db, t))
  {
    hide Own;
    Relinked(db, PostTasks.Generate(db, user));
    Relinked(db, PostTasks.DoingTask(db, t));
    Relinked(db, PostTasks.FailTask(db, t));
  }

  lemma PostsFinish(db: Db, t: int, order: int)
    requires Own(db) && PostInv(db.publishOrders, db.publishTasks, db.posts, db.postTasks)
    requires 0 <= t < |db.postTasks| && 0 <= order < |db.publishOrders|
    requires db.publishOrders[order].user == db.postTasks[t].user
    ensures Own(PostTasks.FinishTask(db, t, order))
  {
    forall i | 0 <= i < |db.posts| && db.posts[i].postTask == t ensures db.posts[i].user == db.postTasks[t].user {
      assert PostOk(db.publishOrders, db.publishTasks, db.postTasks, db.posts[i]);
    }
    hide Own, PostInv;
    Relinked(db, PostTasks.FinishTask(db, t, order));
  }

  lemma PublishMoves(db: Db, t: int, state: TaskState, status: SiteStatus)
    requires Own(db)
    ensures Own(SiteTasks.MovePublish(db, t, state, status))
  {
    hide Own;
    if 0 <= t < |db.publishTasks| {
      Relinked(db, SiteTasks.MovePublish(db, t, state, status));
    }
  }

  lemma DeployMoves(db: Db, d: int, site: nat, user: nat, state: TaskState, status: SiteStatus)
    requires Own(db)
    ensures 0 <= d < |db.deployOrders| ==> Own(SiteTasks.StartDeploy(db, d, site, user))
    ensures Own(SiteTasks.CloseDeploy(db, d, state, status))
  {
    hide Own;
    if 0 <= d < |db.deployOrders| { Untouched(db, SiteTasks.StartDeploy(db, d, site, user)); }
    Untouched(db, SiteTasks.CloseDeploy(db, d, state, status));
  }

  lemma FailOwn(db: Db, j: Job)
    requires Own(db)
    ensures Own(FailTask(db, j))
  {
    hide Own;
    match j.kind
    case DeployJob => DeployMoves(db, j.task, 0, 0, Failed, DeployFailed);
    case PostJob => PostTaskMoves(db, 0, j.task);
    case PublishJob => PublishMoves(db, j.task, Failed, PublishFailed);
  }

  // ---- steps ----

  lemma Parts(s: State)
    requires Inv(s)
    ensures PublishInv(s.db.sites, s.db.publishOrders, s.db.publishTasks) && EventsOk(s.db)
    ensures PostInv(s.db.publishOrders, s.db.publishTasks, s.db.posts, s.db.postTasks)
  {
  }

  lemma OutsideOwn(s: State, a: OutsideAction)
    requires Inv(s) && Own(s.db) && OutsideEnabled(s, a)
    ensures Own(OutsideNext(s, a).db)
  {
    hide Inv, Own, DeployInv, PublishInv, PostInv, EventsOk, SiteOrders.SaveDeployOrder, SiteOrders.GeneratePublishOrder,
         SiteTasks.LinkOrGenerate, SiteOrders.EndRetry, SiteOrders.BeginRetry, PostOrders.RetryPost, PostOrders.SavePost,
         PostOrders.BeginCertificate, PostOrders.StoreCertificate, PostOrders.LoseCertificate;
    Parts(s);
    History.Parts(s);
    match a
    case ATick => Untouched(s.db, OutsideNext(s, a).db);
    case ACreateSite(_) => Untouched(s.db, OutsideNext(s, a).db);
    case ASavePost(user) => NewPost(s.db, user, Pending, Pending);
    case ARequestDeploy(user, site) => DeploySaved(s.db, user, site);
    case ARequestPublish(user) => Generated(s.db, user);
    case ARetry(user, p) => Retried(s.db, user, p);
    case ABeginCertificate(p) => OnePost(s.db, p);
    case AStoreCertificate(p) => OnePost(s.db, p);
    case ALoseCertificate(p) => OnePost(s.db, p);
    case ADeliverLink(e) =>
      var taken := s.db.(links := s.db.links - multiset{e});
      Untouched(s.db, taken);
      Linked(taken, e.site, e.user);
    case ABeginRetry(e) => RetryBegun(s.db, e);
    case AEndRetry(r) => Repointed(s.db, r);
  }

  lemma DispatcherOwn(s: State, a: DispatcherAction)
    requires Inv(s) && Own(s.db) && DispatcherEnabled(s, a)
    ensures Own(DispatcherNext(s, a).db)
  {
    hide Inv, Own, PublishInv, PostInv, EventsOk, DispatcherNext, FailTask, PostTasks.Generate, PostTasks.DoingTask,
         SiteTasks.StartDeploy, SiteTasks.LinkOrGenerate, SiteTasks.MovePublish, FirstDeploy, FirstPublish, FirstPost;
    Parts(s);
    DispatcherDb(s, a);
    match a
    case AStartDeploy =>
      var o := s.db.deployOrders[s.phase.choice.d];
      DeployMoves(s.db, s.phase.choice.d, o.site, o.user, Failed, DeployFailed);
    case ASweep => PostTaskMoves(s.db, s.db.posts[s.phase.choice.p].user, 0);
    case AMarkPosts => PostTaskMoves(s.db, 0, s.phase.postTask);
    case ALinkForPublish =>
      StepKeeps.ChosenSite(s, s.phase.choice.o);
      var o := s.db.publishOrders[s.phase.choice.o];
      Linked(s.db, o.site, o.user);
    case AMarkPublish => PublishMoves(s.db, s.db.publishOrders[s.phase.order].task, Doing, Publishing);
    case AAbandon => FailOwn(s.db, s.phase.job);
    case _ =>
  }

  lemma ClosingOwner(s: State, t: int)
    requires Inv(s) && t in s.closing
    ensures 0 <= t < |s.db.postTasks| && 0 <= s.closing[t] < |s.db.publishOrders|
    ensures s.db.publishOrders[s.closing[t]].user == s.db.postTasks[t].user
  {
  }

  lemma WorkerOwn(s: State, a: WorkerAction)
    requires Inv(s) && Own(s.db) && WorkerEnabled(s, a)
    ensures Own(WorkerNext(s, a).db)
  {
    hide Inv, Own, PublishInv, PostInv, EventsOk, WorkerNext, FailTask, PostTasks.FinishTask, SiteTasks.CloseDeploy,
         SiteTasks.MovePublish, SiteOrders.GeneratePublishOrder, PostOrders.FailSubmit;
    Parts(s);
    WorkerDb(s, a);
    match a
    case AStartJob(_) =>
    case AReport(_, p) => OnePost(s.db, p);
    case ACompleteDeploy(t) => DeployMoves(s.db, t, 0, 0, Finished, Deployed);
    case AOrderFirstPublish(t) => Generated(s.db, s.db.deployTasks[t].user);
    case ACompletePosts(t) => Generated(s.db, s.db.postTasks[t].user);
    case AFinishPosts(t) => ClosingOwner(s, t); PostsFinish(s.db, t, s.closing[t]);
    case ACompletePublish(t) => PublishMoves(s.db, t, Finished, Published);
    case AFailJob(j) => FailOwn(s.db, j);
  }

  lemma StepOwn(s: State, a: Action)
    requires Inv(s) && Own(s.db) && Enabled(s, a)
    ensures Own(Next(s, a).db)
  {
    hide Inv, Own, OutsideEnabled, OutsideNext, DispatcherEnabled, DispatcherNext, WorkerEnabled, WorkerNext;
    match a
    case Outside(o) => OutsideOwn(s, o);
    case Dispatcher(d) => DispatcherOwn(s, d);
    case Worker(w) => WorkerOwn(s, w);
  }

  lemma {:induction false} RunOwn(s: State, actions: seq<Action>)
    requires Inv(s) && Own(s.db) && IsRun(s, actions)
    ensures Inv(After(s, actions)) && Own(After(s, actions).db)
    decreases |actions|
  {
    if actions != [] {
      hide Inv, Own, Enabled, Next;
      StepInv(s, actions[0]);
      StepOwn(s, actions[0]);
      RunOwn(Next(s, actions[0]), actions[1..]);
    }
  }

  // ---- results ----

  lemma ReachableOwn(s: State)
    requires Reachable(s)
    ensures Inv(s) && Own(s.db)
  {
    hide Inv;
    var wipLimit: nat, concurrency: nat, actions :|
      IsRun(Start(wipLimit, concurrency), actions) && After(Start(wipLimit, concurrency), actions) == s;
    StartInv(wipLimit, concurrency);
    RunOwn(Start(wipLimit, concurrency), actions);
  }

  /** In every reachable state posts point at orders and tasks of their own users only, and no user has a
      post being published while another of his posts is being submitted. */
  lemma PostsStayWithTheirUsers(s: State)
    requires Reachable(s)
    ensures Owned(s.db)
    ensures forall p, q :: p in s.db.posts && q in s.db.posts && p.publish == Doing && q.submit == Doing ==> p.user != q.user
  {
    hide Reachable, Inv, Own, Owned;
    ReachableOwn(s);
    OwnIsOwned(s.db);
    forall p, q | p in s.db.posts && q in s.db.posts && p.publish == Doing && q.submit == Doing ensures p.user != q.user {
      PublishingExcludes(s, p, q);
    }
  }

  lemma OwnIsOwned(db: Db)
    requires Own(db)
    ensures Owned(db)
  {
    forall i | 0 <= i < |db.posts| ensures OwnLinks(db.publishOrders, db.publishTasks, db.posts[i]) {
      assert RowOwn(db.publishOrders, db.publishTasks, db.posts[i]);
    }
  }

  lemma PublishingExcludes(s: State, p: PostOrder, q: PostOrder)
    requires Inv(s) && Owned(s.db) && p in s.db.posts && q in s.db.posts && p.publish == Doing && q.submit == Doing
    ensures p.user != q.user
  {
    assert PostOk(s.db.publishOrders, s.db.publishTasks, s.db.postTasks, p);
    assert OwnLinks(s.db.publishOrders, s.db.publishTasks, p);
    var t := p.publishTask;
    assert Carries(s.db.publishOrders, t);
    var i :| 0 <= i < |s.db.publishOrders| && s.db.publishOrders[i].task == t;
    DbKeeps.OrdersUser(s.db, t);
    assert PublishOrderAgrees(s.db.publishTasks, s.db.publishOrders[i]);
  }

  // ---- the retry of a failed publish ----

  /** The order that the handler of the event finds or creates, and both halves of the handler. */
  function HandlerOrder(db: Db, e: RetryEvent): int {
    SiteOrders.GeneratePublishOrder(db.(retries := db.retries - multiset{e}), e.user).order
  }

  function Handled(db: Db, e: RetryEvent): Db {
    if HandlerOrder(db, e) < 0 then SiteOrders.BeginRetry(db, e)
    else SiteOrders.EndRetry(SiteOrders.BeginRetry(db, e), Repoint(e.postTask, HandlerOrder(db, e)))
  }

  /** A retry of a failed publish and its handler: the post is PENDING, and a further retry is refused; it
      points at a publish order exactly when it has a post task and its user a site. Without a post task no
      post at all is touched by the handler. */
  lemma RetryReachesOrderIff(db: Db, user: nat, p: int, retried: Db, after: Db)
    requires 0 <= p < |db.posts| && db.posts[p].user == user
    requires db.posts[p].certificate != Failed && db.posts[p].submit != Failed && db.posts[p].publish == Failed
    requires PostOrders.RetryPost(db, user, p) == PostOrders.Retried(retried)
    requires after == Handled(retried, RetryEvent(user, db.posts[p].postTask))
    ensures |after.posts| == |db.posts|
    ensures after.posts[p] == db.posts[p].(publish := Pending, publishTask := NONE, publishOrder := after.posts[p].publishOrder)
    ensures after.posts[p].publishOrder != NONE <==> db.posts[p].postTask != NONE && DefaultSite(db.sites, user) != NONE
    ensures db.posts[p].postTask == NONE ==> after.posts == retried.posts
    ensures PostOrders.RetryPost(after, user, p) == PostOrders.Refused(PostOrders.NoRetryRequired)
  {
    hide PostOrders.RetryPost, Handled, HandlerOrder;
    RetriedRow(db, user, p, retried);
    PointedRow(retried, RetryEvent(user, db.posts[p].postTask), p, after);
    RetryRefused(after, user, p);
  }

  lemma PointedRow(db: Db, e: RetryEvent, p: int, after: Db)
    requires 0 <= p < |db.posts| && db.posts[p].postTask == e.postTask && db.posts[p].publishOrder == NONE
    requires after == Handled(db, e)
    ensures |after.posts| == |db.posts|
    ensures after.posts[p] == db.posts[p].(publishOrder := after.posts[p].publishOrder)
    ensures after.posts[p].publishOrder != NONE <==> e.postTask != NONE && DefaultSite(db.sites, e.user) != NONE
    ensures e.postTask == NONE ==> after.posts == db.posts
  {
    hide Handled, HandlerOrder;
    HandledRows(db, e);
  }

  lemma RetriedRow(db: Db, user: nat, p: int, retried: Db)
    requires 0 <= p < |db.posts| && db.posts[p].user == user
    requires db.posts[p].certificate != Failed && db.posts[p].submit != Failed && db.posts[p].publish == Failed
    requires PostOrders.RetryPost(db, user, p) == PostOrders.Retried(retried)
    ensures retried.sites == db.sites
    ensures retried.posts == db.posts[p := db.posts[p].(publish := Pending, publishOrder := NONE, publishTask := NONE)]
  {
  }

  lemma RetryRefused(db: Db, user: nat, p: int)
    requires 0 <= p < |db.posts| && db.posts[p].user == user
    requires db.posts[p].certificate != Failed && db.posts[p].submit != Failed && db.posts[p].publish != Failed
    ensures PostOrders.RetryPost(db, user, p) == PostOrders.Refused(PostOrders.NoRetryRequired)
  {
  }

  lemma HandledRows(db: Db, e: RetryEvent)
    ensures HandlerOrder(db, e) == NONE <==> DefaultSite(db.sites, e.user) == NONE
    ensures NONE <= HandlerOrder(db, e)
    ensures Handled(db, e).posts ==
      if HandlerOrder(db, e) == NONE || e.postTask == NONE then db.posts
      else UpdatePosts(db.posts, OfPostTask(e.postTask), SetPublishOrder(HandlerOrder(db, e)))
  {
    assert SiteOrders.BeginRetry(db, e).posts == db.posts;
  }

  /** In every reachable state the publish retries that get no order are exactly the unanchored ones, and
      such a post waits to be submitted: it is among those that the next sweep of its user stamps. */
  lemma UnanchoredRetryIff(s: State, user: nat, p: int, retried: Db, after: Db)
    requires Reachable(s) && 0 <= p < |s.db.posts| && s.db.posts[p].user == user
    requires s.db.posts[p].certificate != Failed && s.db.posts[p].submit != Failed && s.db.posts[p].publish == Failed
    requires PostOrders.RetryPost(s.db, user, p) == PostOrders.Retried(retried)
    requires after == Handled(retried, RetryEvent(user, s.db.posts[p].postTask))
    ensures p < |after.posts|
    ensures after.posts[p].publishOrder == NONE <==> Unanchored(s.db.posts[p])
    ensures after.posts[p].publish == Pending
    ensures PostOrders.RetryPost(after, user, p) == PostOrders.Refused(PostOrders.NoRetryRequired)
    ensures Unanchored(s.db.posts[p]) ==> after.posts[p].submit == Pending && PostMatches(after.posts[p], PendingOfUser(user))
  {
    hide Reachable, Inv, Own, PostOrders.RetryPost, Handled;
    ReachableOwn(s);
    RetrierRow(s, p);
    RetryReachesOrderIff(s.db, user, p, retried, after);
  }

  lemma RetrierRow(s: State, p: int)
    requires Inv(s) && Own(s.db) && 0 <= p < |s.db.posts|
    ensures Unanchored(s.db.posts[p]) ==> s.db.posts[p].submit == Pending
    ensures s.db.posts[p].postTask != NONE ==> DefaultSite(s.db.sites, s.db.posts[p].user) != NONE
  {
    assert PostOk(s.db.publishOrders, s.db.publishTasks, s.db.postTasks, s.db.posts[p]);
    assert RowOwn(s.db.publishOrders, s.db.publishTasks, s.db.posts[p]);
    assert PostTasksOk(s.db.sites, s.db.postTasks);
  }
}

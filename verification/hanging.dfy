/** No submitted post is forgotten: until it is published it hangs on an open publish order or its retry
    is under way, provided that no publish is marked between the two halves of a retry on its orders. */
module Hanging {
  import opened PipelineTypes
  import opened Tables
  import opened Pipeline
  import opened Invariants
  import opened Runs
  import opened StepTables
  import opened Overtaking
  import opened Ownership
  import Carrying
  import Batches
  import History
  import StepKeeps
  import DbKeeps
  import PublishKeeps
  import PostOrders
  import PostTasks
  import SiteOrders
  import SiteTasks

  /** The next publish of its pair carries the order. */
  predicate Open(orders: seq<PublishOrder>, o: int) {
    0 <= o < |orders| && Unpublished(orders[o].state)
  }

  ghost predicate Awaited(db: Db, t: int) {
    (exists e :: e in db.retries && e.postTask == t) || (exists r :: r in db.repoints && r.postTask == t)
  }

  ghost predicate Hangs(db: Db, p: PostOrder) {
    p.publish != Nothing &&
    (p.submit == Finished && p.postTask != NONE && Unpublished(p.publish) ==>
      Open(db.publishOrders, p.publishOrder) ||
      (p.publishOrder == NONE && p.publishTask == NONE && Awaited(db, p.postTask))) &&
    (p.publish == Doing ==>
      Open(db.publishOrders, p.publishOrder) ||
      (0 <= p.publishOrder < |db.publishOrders| && db.publishOrders[p.publishOrder].task == p.publishTask))
  }

  ghost predicate AllHang(db: Db) {
    (forall i :: 0 <= i < |db.posts| ==> Hangs(db, db.posts[i])) &&
    (forall r :: r in db.repoints ==> r.order < |db.publishOrders| && db.publishOrders[r.order].state == Pending)
  }

  predicate OnTask(orders: seq<PublishOrder>, o: int, t: int) {
    0 <= o < |orders| && orders[o].task == t
  }

  /** A submitted, unpublished post that points at an order of task t. */
  predicate Waits(orders: seq<PublishOrder>, p: PostOrder, t: int) {
    p.submit == Finished && Unpublished(p.publish) && OnTask(orders, p.publishOrder, t)
  }

  /** The waiting posts of task t carry it. */
  predicate Stamped(db: Db, t: int) {
    forall i :: 0 <= i < |db.posts| && Waits(db.publishOrders, db.posts[i], t) ==> db.posts[i].publishTask == t
  }

  predicate LinkedStamped(s: State) {
    s.phase.Linked? && 0 <= s.phase.order < |s.db.publishOrders| ==> Stamped(s.db, s.db.publishOrders[s.phase.order].task)
  }

  /** No half handled retry is about to point posts at an order of task t. */
  ghost predicate NoRetryOn(db: Db, t: int) {
    forall r :: r in db.repoints ==> !OnTask(db.publishOrders, r.order, t)
  }

  /** The unpublished posts that the re-pointing puts on an order of task t carry the task already. */
  predicate RepointCarried(db: Db, r: Repoint, t: int) {
    r.postTask != NONE && OnTask(db.publishOrders, r.order, t) ==>
    forall i :: 0 <= i < |db.posts| && db.posts[i].postTask == r.postTask && Unpublished(db.posts[i].publish) ==>
      db.posts[i].publishTask == t
  }

  /** Harmless steps, and the publish of an order is not marked, nor is a linked one joined, between the
      two halves of a retry on that order. */
  ghost predicate Careful(s: State, a: Action) {
    Harmless(s, a) &&
    match a
    case Outside(AEndRetry(r)) =>
      s.phase.Linked? && 0 <= s.phase.order < |s.db.publishOrders| ==>
      RepointCarried(s.db, r, s.db.publishOrders[s.phase.order].task)
    case Dispatcher(AMarkPublish) =>
      s.phase.Linked? && 0 <= s.phase.order < |s.db.publishOrders| ==>
      NoRetryOn(s.db, s.db.publishOrders[s.phase.order].task)
    case _ => true
  }

  ghost predicate Fit(s: State) {
    Inv(s) && InOrder(s.db) && Own(s.db) && AllHang(s.db) && LinkedStamped(s)
  }

  // ---- operations ----

  /** Orders keep state and task, events stay or come. */
  ghost predicate OrdersKept(a: Db, b: Db) {
    |a.publishOrders| <= |b.publishOrders| &&
    (forall i :: 0 <= i < |a.publishOrders| ==> b.publishOrders[i].state == a.publishOrders[i].state) &&
    (forall i :: 0 <= i < |a.publishOrders| && !Unpublished(a.publishOrders[i].state) ==>
      b.publishOrders[i].task == a.publishOrders[i].task) &&
    (forall t :: Awaited(a, t) ==> Awaited(b, t)) &&
    (forall r :: r in b.repoints ==>
      r in a.repoints || (r.order < |b.publishOrders| && b.publishOrders[r.order].state == Pending))
  }

  lemma Kept(a: Db, b: Db)
    requires AllHang(a) && OrdersKept(a, b) && |a.posts| <= |b.posts|
    requires forall i :: 0 <= i < |a.posts| ==> b.posts[i] == a.posts[i] || Hangs(a, b.posts[i])
    requires forall i :: |a.posts| <= i < |b.posts| ==> Hangs(a, b.posts[i])
    ensures AllHang(b)
  {
    forall i | 0 <= i < |b.posts| ensures Hangs(b, b.posts[i]) {
      assert Hangs(a, b.posts[i]);
      HangsStays(a, b, b.posts[i]);
    }
  }

  lemma HangsStays(a: Db, b: Db, p: PostOrder)
    requires Hangs(a, p) && OrdersKept(a, b)
    ensures Hangs(b, p)
  {
  }

  lemma SameOrders(a: Db, b: Db)
    requires b.publishOrders == a.publishOrders && b.retries == a.retries && b.repoints == a.repoints
    ensures OrdersKept(a, b)
  {
  }

  lemma PostSaved(db: Db, user: nat, submit: TaskState, publish: TaskState)
    requires AllHang(db) && publish in {Pending, Finished}
    ensures AllHang(PostOrders.SavePost(db, user, submit, publish))
  {
    var db' := PostOrders.SavePost(db, user, submit, publish);
    SameOrders(db, db');
    hide AllHang, OrdersKept;
    Kept(db, db');
  }

  lemma DeploySaved(db: Db, user: nat, site: int)
    requires AllHang(db)
    ensures AllHang(SiteOrders.SaveDeployOrder(db, user, site))
  {
    hide AllHang, OrdersKept;
    PostSaved(db, user, Finished, Finished);
    var db' := SiteOrders.SaveDeployOrder(db, user, site);
    var from := if db'.posts == db.posts then db else PostOrders.SavePost(db, user, Finished, Finished);
    SameOrders(from, db');
    Kept(from, db');
  }

  lemma RowChanged(db: Db, p: int, row: PostOrder)
    requires AllHang(db) && 0 <= p < |db.posts| && Hangs(db, row)
    ensures AllHang(db.(posts := db.posts[p := row]))
  {
    SameOrders(db, db.(posts := db.posts[p := row]));
    hide AllHang, OrdersKept, Hangs;
    Kept(db, db.(posts := db.posts[p := row]));
  }

  lemma Retried(db: Db, user: nat, p: int)
    requires AllHang(db)
    ensures var r := PostOrders.RetryPost(db, user, p); r.Retried? ==> AllHang(r.db)
  {
    var r := PostOrders.RetryPost(db, user, p);
    if r.Retried? {
      var with := db.(retries := r.db.retries);
      var e := RetryEvent(user, db.posts[p].postTask);
      assert with.retries == db.retries || e in with.retries;
      assert OrdersKept(db, with);
      Kept(db, with);
      assert Hangs(db, db.posts[p]);
      RowChanged(with, p, r.db.posts[p]);
    }
  }

  lemma CertificateMoves(db: Db, p: int)
    requires AllHang(db) && 0 <= p < |db.posts|
    ensures AllHang(PostOrders.BeginCertificate(db, p)) && AllHang(PostOrders.StoreCertificate(db, p))
    ensures AllHang(PostOrders.LoseCertificate(db, p)) && AllHang(PostOrders.FailSubmit(db, p))
  {
    assert Hangs(db, db.posts[p]);
    RowChanged(db, p, PostOrders.BeginCertificate(db, p).posts[p]);
    RowChanged(db, p, PostOrders.StoreCertificate(db, p).posts[p]);
    RowChanged(db, p, PostOrders.LoseCertificate(db, p).posts[p]);
    RowChanged(db, p, PostOrders.FailSubmit(db, p).posts[p]);
  }

  lemma Generated(db: Db, user: nat)
    requires AllHang(db)
    ensures AllHang(SiteOrders.GeneratePublishOrder(db, user).db)
  {
    var db' := SiteOrders.GeneratePublishOrder(db, user).db;
    assert OrdersKept(db, db');
    hide AllHang, OrdersKept;
    Kept(db, db');
  }

  lemma RetryBegun(db: Db, e: RetryEvent)
    requires AllHang(db) && e in db.retries && DefaultSite(db.sites, e.user) != NONE
    ensures AllHang(SiteOrders.BeginRetry(db, e))
  {
    var taken := db.(retries := db.retries - multiset{e});
    var g := SiteOrders.GeneratePublishOrder(taken, e.user);
    var db' := SiteOrders.BeginRetry(db, e);
    DbKeeps.GeneratedRows(taken, e.user);
    GeneratedEvents(taken, e.user);
    var r := Repoint(e.postTask, g.order);
    assert db'.repoints == db.repoints + multiset{r};
    forall t | Awaited(db, t) ensures Awaited(db', t) {
      AwaitedMoves(db, db', e, r, t);
    }
    hide SiteOrders.GeneratePublishOrder, SiteOrders.BeginRetry, Awaited;
    Kept(db, db');
  }

  lemma GeneratedEvents(db: Db, user: nat)
    ensures var db' := SiteOrders.GeneratePublishOrder(db, user).db;
            db'.posts == db.posts && db'.retries == db.retries && db'.repoints == db.repoints
  {
  }

  lemma AwaitedMoves(a: Db, b: Db, e: RetryEvent, r: Repoint, t: int)
    requires Awaited(a, t) && r.postTask == e.postTask
    requires b.retries == a.retries - multiset{e} && b.repoints == a.repoints + multiset{r}
    ensures Awaited(b, t)
  {
    if t == e.postTask {
      assert r in b.repoints;
    } else if exists x :: x in a.retries && x.postTask == t {
      var x :| x in a.retries && x.postTask == t;
      assert x in b.retries;
    } else {
      var x :| x in a.repoints && x.postTask == t;
      assert x in b.repoints;
    }
  }

  lemma Repointed(db: Db, r: Repoint)
    requires AllHang(db) && r in db.repoints
    ensures AllHang(SiteOrders.EndRetry(db, r))
  {
    var db' := SiteOrders.EndRetry(db, r);
    assert Open(db.publishOrders, r.order);
    forall i | 0 <= i < |db'.posts| ensures Hangs(db', db'.posts[i]) {
      assert Hangs(db, db.posts[i]);
      if db.posts[i].postTask != r.postTask && Awaited(db, db.posts[i].postTask) {
        StillAwaited(db, db', r, db.posts[i].postTask);
      }
    }
    assert forall x :: x in db'.repoints ==> x in db.repoints;
  }

  lemma StillAwaited(a: Db, b: Db, r: Repoint, t: int)
    requires Awaited(a, t) && t != r.postTask && b.retries == a.retries && b.repoints == a.repoints - multiset{r}
    ensures Awaited(b, t)
  {
    if exists x :: x in a.repoints && x.postTask == t {
      var x :| x in a.repoints && x.postTask == t;
      assert x in b.repoints;
    }
  }

  lemma LinkKept(db: Db, site: nat, user: nat)
    requires PublishInv(db.sites, db.publishOrders, db.publishTasks)
    requires site < |db.sites| && db.sites[site].user == user
    ensures var db' := SiteTasks.LinkOrGenerate(db, site, user);
            OrdersKept(db, db') && |db'.posts| == |db.posts| &&
            forall i :: 0 <= i < |db.posts| ==>
              db'.posts[i] == db.posts[i] ||
              (Unpublished(db.posts[i].publish) && Open(db.publishOrders, db.posts[i].publishOrder) &&
               db'.posts[i] == db.posts[i].(publishTask := db'.posts[i].publishTask))
  {
    PublishKeeps.LinkedTask(db, site, user);
    var db' := SiteTasks.LinkOrGenerate(db, site, user);
    Carrying.LinkedOrders(db, site, user);
    forall t | Awaited(db, t) ensures Awaited(db', t) { }
  }

  lemma LinkHangs(db: Db, site: nat, user: nat)
    requires AllHang(db) && PublishInv(db.sites, db.publishOrders, db.publishTasks)
    requires site < |db.sites| && db.sites[site].user == user
    ensures AllHang(SiteTasks.LinkOrGenerate(db, site, user))
  {
    LinkKept(db, site, user);
    hide SiteTasks.LinkOrGenerate, PublishInv, OrdersKept, Open, Awaited;
    var db' := SiteTasks.LinkOrGenerate(db, site, user);
    forall i | 0 <= i < |db.posts| ensures Hangs(db, db'.posts[i]) { assert Hangs(db, db.posts[i]); }
    hide AllHang, Hangs;
    Kept(db, db');
  }

  lemma Swept(db: Db, user: nat)
    requires AllHang(db)
    ensures AllHang(PostTasks.Generate(db, user))
  {
    var db' := PostTasks.Generate(db, user);
    SameOrders(db, db');
    forall i | 0 <= i < |db.posts| ensures Hangs(db, db'.posts[i]) { assert Hangs(db, db.posts[i]); }
    hide AllHang, Hangs, OrdersKept;
    Kept(db, db');
  }

  lemma PostTaskMoves(db: Db, t: int)
    requires AllHang(db)
    ensures AllHang(PostTasks.DoingTask(db, t)) && AllHang(PostTasks.FailTask(db, t))
  {
    var doing := PostTasks.DoingTask(db, t);
    var failed := PostTasks.FailTask(db, t);
    SameOrders(db, doing);
    SameOrders(db, failed);
    forall i | 0 <= i < |db.posts| ensures Hangs(db, doing.posts[i]) && Hangs(db, failed.posts[i]) {
      assert Hangs(db, db.posts[i]);
    }
    hide AllHang, Hangs, OrdersKept;
    Kept(db, doing);
    Kept(db, failed);
  }

  lemma PostsFinish(db: Db, t: int, order: int)
    requires AllHang(db) && InOrder(db)
    requires Batches.Batch(db.posts, t) == {} || Open(db.publishOrders, order)
    ensures AllHang(PostTasks.FinishTask(db, t, order))
  {
    var db' := PostTasks.FinishTask(db, t, order);
    SameOrders(db, db');
    forall i | 0 <= i < |db.posts| ensures Hangs(db, db'.posts[i]) {
      assert Hangs(db, db.posts[i]) && LinksSubmitted(db.posts[i]) && OnBatch(db.posts[i]);
      assert db'.posts[i] != db.posts[i] ==> i in Batches.Batch(db.posts, t);
    }
    hide AllHang, Hangs, OrdersKept;
    Kept(db, db');
  }

  /** The start of a publish: the posts of its orders carry it, and no other post of the user runs. */
  lemma PublishMarked(db: Db, t: int)
    requires AllHang(db) && InOrder(db) && Own(db) && PublishInv(db.sites, db.publishOrders, db.publishTasks)
    requires PostInv(db.publishOrders, db.publishTasks, db.posts, db.postTasks)
    requires 0 <= t < |db.publishTasks| && db.publishTasks[t].state == Pending && Quiet(db, db.publishTasks[t].user)
    requires Stamped(db, t) && NoRetryOn(db, t)
    ensures AllHang(SiteTasks.DoingPublish(db, t))
  {
    var db' := SiteTasks.DoingPublish(db, t);
    DbKeeps.OrdersUser(db, t);
    SameEvents(db, db');
    hide PublishInv, InOrder, Own, AllHang, Stamped, Awaited;
    forall i | 0 <= i < |db.posts| ensures Hangs(db', db'.posts[i]) {
      MarkedRow(db, t, i);
      MarkedPost(db, db', t, db.posts[i], db'.posts[i]);
    }
    AllOfThem(db');
  }

  /** What is known of a post when a publish is marked. */
  lemma MarkedRow(db: Db, t: int, i: int)
    requires AllHang(db) && InOrder(db) && Own(db) && Stamped(db, t)
    requires PostInv(db.publishOrders, db.publishTasks, db.posts, db.postTasks)
    requires 0 <= t < |db.publishTasks| && 0 <= i < |db.posts|
    ensures var p := db.posts[i];
            Hangs(db, p) && LinksSubmitted(p) && OnBatch(p) && OwnLinks(db.publishOrders, db.publishTasks, p) &&
            PostOk(db.publishOrders, db.publishTasks, db.postTasks, p) &&
            (Waits(db.publishOrders, p, t) ==> p.publishTask == t)
  {
  }

  lemma MarkedPost(a: Db, b: Db, t: int, p: PostOrder, q: PostOrder)
    requires Hangs(a, p) && LinksSubmitted(p) && OnBatch(p) && OwnLinks(a.publishOrders, a.publishTasks, p)
    requires PostOk(a.publishOrders, a.publishTasks, a.postTasks, p)
    requires 0 <= t < |a.publishTasks| && a.publishTasks[t].state == Pending
    requires p.publish == Doing ==> p.user != a.publishTasks[t].user
    requires forall o :: 0 <= o < |a.publishOrders| && a.publishOrders[o].task == t ==>
      a.publishOrders[o].user == a.publishTasks[t].user
    requires b.publishOrders == UpdateOrders(a.publishOrders, OfTask(t), SetState(Doing))
    requires q == if p.publishTask == t then p.(publish := Doing) else p
    requires Waits(a.publishOrders, p, t) ==> p.publishTask == t
    requires forall x :: Awaited(a, x) ==> Awaited(b, x)
    ensures Hangs(b, q)
  {
  }

  /** The end of a publish: its orders and posts end together. */
  lemma PublishEnded(db: Db, t: int, state: TaskState, status: SiteStatus)
    requires AllHang(db) && InOrder(db) && PublishInv(db.sites, db.publishOrders, db.publishTasks)
    requires PostInv(db.publishOrders, db.publishTasks, db.posts, db.postTasks)
    requires 0 <= t < |db.publishTasks| && db.publishTasks[t].state == Doing && state in {Finished, Failed}
    ensures AllHang(SiteTasks.MovePublish(db, t, state, status))
  {
    hide PublishInv, InOrder, PostInv, AllHang, Hangs;
    var db' := SiteTasks.MovePublish(db, t, state, status);
    RunningOrders(db, t);
    SameEvents(db, db');
    EndedRepoints(db, db', t, state);
    hide Awaited;
    forall i | 0 <= i < |db.posts| ensures Hangs(db', db'.posts[i]) {
      EndedRow(db, i);
      EndedPost(db, db', t, state, db.posts[i], db'.posts[i]);
    }
    AllOfThem(db');
  }

  lemma SameEvents(a: Db, b: Db)
    requires b.retries == a.retries && b.repoints == a.repoints
    ensures forall x :: Awaited(a, x) ==> Awaited(b, x)
  {
  }

  lemma AllOfThem(db: Db)
    requires forall i :: 0 <= i < |db.posts| ==> Hangs(db, db.posts[i])
    requires forall r :: r in db.repoints ==> r.order < |db.publishOrders| && db.publishOrders[r.order].state == Pending
    ensures AllHang(db)
  {
  }

  lemma RunningOrders(db: Db, t: int)
    requires PublishInv(db.sites, db.publishOrders, db.publishTasks)
    requires 0 <= t < |db.publishTasks| && db.publishTasks[t].state == Doing
    ensures forall o :: 0 <= o < |db.publishOrders| && db.publishOrders[o].task == t ==> db.publishOrders[o].state == Doing
  {
    forall o | 0 <= o < |db.publishOrders| && db.publishOrders[o].task == t ensures db.publishOrders[o].state == Doing {
      assert PublishOrderAgrees(db.publishTasks, db.publishOrders[o]);
    }
  }

  /** A re-pointing keeps its PENDING order. */
  lemma EndedRepoints(a: Db, b: Db, t: int, state: TaskState)
    requires AllHang(a) && b.repoints == a.repoints
    requires forall o :: 0 <= o < |a.publishOrders| && a.publishOrders[o].task == t ==> a.publishOrders[o].state == Doing
    requires b.publishOrders == UpdateOrders(a.publishOrders, OfTask(t), SetState(state))
    ensures forall r :: r in b.repoints ==> r.order < |b.publishOrders| && b.publishOrders[r.order].state == Pending
  {
  }

  lemma EndedRow(db: Db, i: int)
    requires AllHang(db) && InOrder(db) && PostInv(db.publishOrders, db.publishTasks, db.posts, db.postTasks)
    requires 0 <= i < |db.posts|
    ensures Hangs(db, db.posts[i]) && LinksSubmitted(db.posts[i]) && OnBatch(db.posts[i])
    ensures PostOk(db.publishOrders, db.publishTasks, db.postTasks, db.posts[i])
  {
  }

  lemma EndedPost(a: Db, b: Db, t: int, state: TaskState, p: PostOrder, q: PostOrder)
    requires Hangs(a, p) && LinksSubmitted(p) && OnBatch(p) && PostOk(a.publishOrders, a.publishTasks, a.postTasks, p)
    requires 0 <= t < |a.publishTasks| && a.publishTasks[t].state == Doing && state in {Finished, Failed}
    requires forall o :: 0 <= o < |a.publishOrders| && a.publishOrders[o].task == t ==> a.publishOrders[o].state == Doing
    requires b.publishOrders == UpdateOrders(a.publishOrders, OfTask(t), SetState(state))
    requires q == if p.publishTask == t then p.(publish := state) else p
    requires forall x :: Awaited(a, x) ==> Awaited(b, x)
    ensures Hangs(b, q)
  {
  }

  lemma DeployMoves(db: Db, d: int, site: nat, user: nat, state: TaskState, status: SiteStatus)
    requires AllHang(db)
    ensures 0 <= d < |db.deployOrders| ==> AllHang(SiteTasks.StartDeploy(db, d, site, user))
    ensures AllHang(SiteTasks.CloseDeploy(db, d, state, status))
  {
    if 0 <= d < |db.deployOrders| {
      SameOrders(db, SiteTasks.StartDeploy(db, d, site, user));
      Kept(db, SiteTasks.StartDeploy(db, d, site, user));
    }
    SameOrders(db, SiteTasks.CloseDeploy(db, d, state, status));
    Kept(db, SiteTasks.CloseDeploy(db, d, state, status));
  }

  lemma Untouched(a: Db, b: Db)
    requires AllHang(a) && b.posts == a.posts && b.publishOrders == a.publishOrders
    requires b.retries == a.retries && b.repoints == a.repoints
    ensures AllHang(b)
  {
    SameOrders(a, b);
    hide AllHang, OrdersKept, Hangs;
    Kept(a, b);
  }

  // ---- steps: the posts hang ----

  lemma RetrierHasSite(s: State, e: RetryEvent)
    requires Inv(s) && InOrder(s.db) && e in s.db.retries
    ensures DefaultSite(s.db.sites, e.user) != NONE
  {
    assert e.postTask != NONE && EventsOk(s.db);
    assert PostTasksOk(s.db.sites, s.db.postTasks);
  }

  lemma OutsideHang(s: State, a: OutsideAction)
    requires Inv(s) && InOrder(s.db) && AllHang(s.db) && OutsideEnabled(s, a)
    ensures AllHang(OutsideNext(s, a).db)
  {
    hide Inv, InOrder, AllHang, PublishInv, SiteOrders.SaveDeployOrder, SiteOrders.GeneratePublishOrder,
         SiteTasks.LinkOrGenerate, SiteOrders.EndRetry, SiteOrders.BeginRetry, PostOrders.RetryPost, PostOrders.SavePost,
         PostOrders.BeginCertificate, PostOrders.StoreCertificate, PostOrders.LoseCertificate;
    History.Parts(s);
    match a
    case ATick => Untouched(s.db, OutsideNext(s, a).db);
    case ACreateSite(_) => Untouched(s.db, OutsideNext(s, a).db);
    case ASavePost(user) => PostSaved(s.db, user, Pending, Pending);
    case ARequestDeploy(user, site) => DeploySaved(s.db, user, site);
    case ARequestPublish(user) => Generated(s.db, user);
    case ARetry(user, p) => Retried(s.db, user, p);
    case ABeginCertificate(p) => CertificateMoves(s.db, p);
    case AStoreCertificate(p) => CertificateMoves(s.db, p);
    case ALoseCertificate(p) => CertificateMoves(s.db, p);
    case ADeliverLink(e) =>
      var taken := s.db.(links := s.db.links - multiset{e});
      Untouched(s.db, taken);
      LinkHangs(taken, e.site, e.user);
    case ABeginRetry(e) => RetrierHasSite(s, e); RetryBegun(s.db, e);
    case AEndRetry(r) => Repointed(s.db, r);
  }

  lemma FailHang(s: State, j: Job)
    requires Inv(s) && InOrder(s.db) && AllHang(s.db) && TaskDoing(s.db, j)
    ensures AllHang(FailTask(s.db, j))
  {
    hide Inv, InOrder, AllHang, PublishInv, PostInv;
    Ownership.Parts(s);
    match j.kind
    case DeployJob => DeployMoves(s.db, j.task, 0, 0, Failed, DeployFailed);
    case PostJob => PostTaskMoves(s.db, j.task);
    case PublishJob => PublishEnded(s.db, j.task, Failed, PublishFailed);
  }

  /** What the marking of a publish relies on. */
  lemma MarkReady(s: State)
    requires Fit(s) && s.phase.Linked? && 0 <= s.phase.order < |s.db.publishOrders|
    ensures var t := s.db.publishOrders[s.phase.order].task;
            0 <= t < |s.db.publishTasks| && s.db.publishTasks[t].state == Pending &&
            Quiet(s.db, s.db.publishTasks[t].user) && Stamped(s.db, t)
  {
    StepKeeps.LinkedIsFound(s.db, s.phase.order);
  }

  lemma DispatcherHang(s: State, a: DispatcherAction)
    requires Fit(s) && DispatcherEnabled(s, a) && Careful(s, Dispatcher(a))
    ensures AllHang(DispatcherNext(s, a).db)
  {
    hide Inv, InOrder, AllHang, Own, PublishInv, PostInv, Stamped, DispatcherNext, FailTask, PostTasks.Generate,
         PostTasks.DoingTask, SiteTasks.StartDeploy, SiteTasks.LinkOrGenerate, SiteTasks.MovePublish, FirstDeploy,
         FirstPublish, FirstPost, Quiet, TaskDoing;
    Ownership.Parts(s);
    DispatcherDb(s, a);
    match a
    case AStartDeploy =>
      var o := s.db.deployOrders[s.phase.choice.d];
      DeployMoves(s.db, s.phase.choice.d, o.site, o.user, Failed, DeployFailed);
    case ASweep => Swept(s.db, s.db.posts[s.phase.choice.p].user);
    case AMarkPosts => PostTaskMoves(s.db, s.phase.postTask);
    case ALinkForPublish =>
      StepKeeps.ChosenSite(s, s.phase.choice.o);
      var o := s.db.publishOrders[s.phase.choice.o];
      LinkHangs(s.db, o.site, o.user);
    case AMarkPublish =>
      MarkReady(s);
      PublishMarked(s.db, s.db.publishOrders[s.phase.order].task);
    case AAbandon => StepKeeps.InFlight(s, s.phase.job); FailHang(s, s.phase.job);
    case _ =>
  }

  lemma BatchHasOrder(s: State, t: int)
    requires Inv(s) && t in s.closing
    ensures Batches.Batch(s.db.posts, t) == {} || Open(s.db.publishOrders, s.closing[t])
  {
    forall i | i in Batches.Batch(s.db.posts, t) ensures Open(s.db.publishOrders, s.closing[t]) {
      assert s.db.posts[i].submit == Doing && s.db.posts[i].postTask in s.closing;
    }
  }

  lemma WorkerHang(s: State, a: WorkerAction)
    requires Inv(s) && InOrder(s.db) && AllHang(s.db) && WorkerEnabled(s, a)
    ensures AllHang(WorkerNext(s, a).db)
  {
    hide Inv, InOrder, AllHang, PublishInv, PostInv, WorkerNext, FailTask, PostTasks.FinishTask, SiteTasks.CloseDeploy,
         SiteTasks.MovePublish, SiteOrders.GeneratePublishOrder, PostOrders.FailSubmit, Batches.Batch;
    Ownership.Parts(s);
    WorkerDb(s, a);
    match a
    case AStartJob(_) =>
    case AReport(_, p) => CertificateMoves(s.db, p);
    case ACompleteDeploy(t) => DeployMoves(s.db, t, 0, 0, Finished, Deployed);
    case AOrderFirstPublish(t) => Generated(s.db, s.db.deployTasks[t].user);
    case ACompletePosts(t) => Generated(s.db, s.db.postTasks[t].user);
    case AFinishPosts(t) => BatchHasOrder(s, t); PostsFinish(s.db, t, s.closing[t]);
    case ACompletePublish(t) => StepKeeps.InFlight(s, Job(PublishJob, t)); PublishEnded(s.db, t, Finished, Published);
    case AFailJob(j) => StepKeeps.InFlight(s, j); FailHang(s, j);
  }

  // ---- steps: a linked publish keeps its posts stamped ----

  /** Nothing new waits for task t. */
  lemma StampKept(a: Db, b: Db, t: int)
    requires Stamped(a, t) && |a.posts| <= |b.posts|
    requires forall i :: 0 <= i < |b.posts| && Waits(b.publishOrders, b.posts[i], t) ==>
      i < |a.posts| && Waits(a.publishOrders, a.posts[i], t) && b.posts[i].publishTask == a.posts[i].publishTask
    ensures Stamped(b, t)
  {
  }

  lemma RowStamp(db: Db, p: int, row: PostOrder, t: int)
    requires Stamped(db, t) && 0 <= p < |db.posts|
    requires Waits(db.publishOrders, row, t) ==>
      Waits(db.publishOrders, db.posts[p], t) && row.publishTask == db.posts[p].publishTask
    ensures Stamped(db.(posts := db.posts[p := row]), t)
  {
  }

  lemma RetriedStamp(db: Db, user: nat, p: int, t: int)
    requires Stamped(db, t) && t != NONE
    ensures var r := PostOrders.RetryPost(db, user, p); r.Retried? ==> Stamped(r.db, t)
  {
    var r := PostOrders.RetryPost(db, user, p);
    if r.Retried? {
      RowStamp(db, p, r.db.posts[p], t);
    }
  }

  lemma SavedStamp(db: Db, user: nat, site: int, t: int)
    requires Stamped(db, t)
    ensures Stamped(PostOrders.SavePost(db, user, Pending, Pending), t)
    ensures Stamped(SiteOrders.SaveDeployOrder(db, user, site), t)
  {
    StampKept(db, PostOrders.SavePost(db, user, Pending, Pending), t);
    StampKept(db, SiteOrders.SaveDeployOrder(db, user, site), t);
  }

  lemma GeneratedStamp(db: Db, user: nat, t: int)
    requires Stamped(db, t) && t != NONE
    ensures Stamped(SiteOrders.GeneratePublishOrder(db, user).db, t)
  {
    var db' := SiteOrders.GeneratePublishOrder(db, user).db;
    assert forall i :: 0 <= i < |db.publishOrders| ==> db'.publishOrders[i] == db.publishOrders[i];
    StampKept(db, db', t);
  }

  lemma LinkedStamp(db: Db, site: nat, user: nat, t: int)
    requires Stamped(db, t) && PublishInv(db.sites, db.publishOrders, db.publishTasks)
    requires site < |db.sites| && db.sites[site].user == user
    requires 0 <= t < |db.publishTasks| && db.publishTasks[t].state == Pending
    ensures Stamped(SiteTasks.LinkOrGenerate(db, site, user), t)
  {
    var u := Carrying.NextTask(db, site, user);
    PublishKeeps.LinkedTask(db, site, user);
    if t != u {
      Carrying.PendingElsewhere(db, site, user, t);
      forall i | 0 <= i < |db.publishOrders| && db.publishOrders[i].task == t ensures db.publishOrders[i].site != site {
        assert PublishOrderAgrees(db.publishTasks, db.publishOrders[i]);
      }
    }
    hide PublishInv, SiteTasks.LinkOrGenerate;
    var db' := SiteTasks.LinkOrGenerate(db, site, user);
    LinkedRowsStamped(db, db', site, user, t, u);
  }

  lemma LinkedRowsStamped(a: Db, b: Db, site: nat, user: nat, t: int, u: int)
    requires Stamped(a, t) && u != NONE
    requires t != u ==> forall i :: 0 <= i < |a.publishOrders| && a.publishOrders[i].task == t ==> a.publishOrders[i].site != site
    requires b.publishOrders == UpdateOrders(a.publishOrders, UnpublishedOfSite(user, site), SetTask(u))
    requires b.posts == UpdatePosts(a.posts, UnpublishedOfOrders(OrdersOfTask(b.publishOrders, u)), SetPublishTask(u))
    ensures Stamped(b, t)
  {
    forall i | 0 <= i < |b.posts| && Waits(b.publishOrders, b.posts[i], t) ensures b.posts[i].publishTask == t {
      if t == u {
        assert b.posts[i].publishOrder in OrdersOfTask(b.publishOrders, u);
      } else {
        assert Waits(a.publishOrders, a.posts[i], t);
      }
    }
  }

  lemma OutsideStamped(s: State, a: OutsideAction, t: int)
    requires Inv(s) && OutsideEnabled(s, a) && !a.AEndRetry? && Stamped(s.db, t)
    requires 0 <= t < |s.db.publishTasks| && s.db.publishTasks[t].state == Pending
    ensures Stamped(OutsideNext(s, a).db, t)
  {
    hide Inv, Stamped, PublishInv, SiteOrders.SaveDeployOrder, SiteOrders.GeneratePublishOrder,
         SiteTasks.LinkOrGenerate, SiteOrders.BeginRetry, PostOrders.RetryPost, PostOrders.SavePost,
         PostOrders.BeginCertificate, PostOrders.StoreCertificate, PostOrders.LoseCertificate;
    History.Parts(s);
    match a
    case ATick => SameStamp(s.db, OutsideNext(s, a).db, t);
    case ACreateSite(_) => SameStamp(s.db, OutsideNext(s, a).db, t);
    case ASavePost(user) => SavedStamp(s.db, user, 0, t);
    case ARequestDeploy(user, site) => SavedStamp(s.db, user, site, t);
    case ARequestPublish(user) => GeneratedStamp(s.db, user, t);
    case ARetry(user, p) => RetriedStamp(s.db, user, p, t);
    case ABeginCertificate(p) => CertificateStamp(s.db, p, t);
    case AStoreCertificate(p) => CertificateStamp(s.db, p, t);
    case ALoseCertificate(p) => CertificateStamp(s.db, p, t);
    case ADeliverLink(e) =>
      var taken := s.db.(links := s.db.links - multiset{e});
      SameStamp(s.db, taken, t);
      LinkedStamp(taken, e.site, e.user, t);
    case ABeginRetry(e) => RetryBegunStamp(s.db, e, t);
  }

  lemma SameStamp(a: Db, b: Db, t: int)
    requires Stamped(a, t) && b.posts == a.posts && b.publishOrders == a.publishOrders
    ensures Stamped(b, t)
  {
  }

  lemma CertificateStamp(db: Db, p: int, t: int)
    requires Stamped(db, t) && 0 <= p < |db.posts|
    ensures Stamped(PostOrders.BeginCertificate(db, p), t) && Stamped(PostOrders.StoreCertificate(db, p), t)
    ensures Stamped(PostOrders.LoseCertificate(db, p), t) && Stamped(PostOrders.FailSubmit(db, p), t)
  {
    hide Stamped;
    RowStamp(db, p, PostOrders.BeginCertificate(db, p).posts[p], t);
    RowStamp(db, p, PostOrders.StoreCertificate(db, p).posts[p], t);
    RowStamp(db, p, PostOrders.LoseCertificate(db, p).posts[p], t);
    RowStamp(db, p, PostOrders.FailSubmit(db, p).posts[p], t);
  }

  lemma RetryBegunStamp(db: Db, e: RetryEvent, t: int)
    requires Stamped(db, t) && t != NONE
    ensures Stamped(SiteOrders.BeginRetry(db, e), t)
  {
    hide Stamped, SiteOrders.GeneratePublishOrder;
    var taken := db.(retries := db.retries - multiset{e});
    SameStamp(db, taken, t);
    GeneratedStamp(taken, e.user, t);
    SameStamp(SiteOrders.GeneratePublishOrder(taken, e.user).db, SiteOrders.BeginRetry(db, e), t);
  }

  /** A re-pointing keeps the stamps of a linked task exactly when the posts it adds carry it already. */
  lemma RepointStampedIff(db: Db, r: Repoint, t: int)
    requires Stamped(db, t) && BatchSubmitted(db.posts, r.postTask)
    ensures Stamped(SiteOrders.EndRetry(db, r), t) <==> RepointCarried(db, r, t)
  {
    var db' := SiteOrders.EndRetry(db, r);
    assert db'.publishOrders == db.publishOrders;
    forall i | 0 <= i < |db.posts|
      ensures Waits(db'.publishOrders, db'.posts[i], t) <==>
              if db.posts[i].postTask == r.postTask != NONE
              then Unpublished(db.posts[i].publish) && OnTask(db.publishOrders, r.order, t)
              else Waits(db.publishOrders, db.posts[i], t)
      ensures db'.posts[i].publishTask == db.posts[i].publishTask
    {
    }
  }

  /** The user of the linked publish has no running post, so no batch of his can finish. */
  lemma FinishedStamp(db: Db, u: int, order: int, t: int)
    requires Stamped(db, t) && (Batches.Batch(db.posts, u) == {} || !OnTask(db.publishOrders, order, t))
    ensures Stamped(PostTasks.FinishTask(db, u, order), t)
  {
    var db' := PostTasks.FinishTask(db, u, order);
    forall i | 0 <= i < |db.posts| && db'.posts[i] != db.posts[i] ensures i in Batches.Batch(db.posts, u) { }
    StampKept(db, db', t);
  }

  lemma OtherBatch(s: State, u: int, t: int)
    requires Inv(s) && u in s.closing && 0 <= t < |s.db.publishTasks| && Quiet(s.db, s.db.publishTasks[t].user)
    ensures Batches.Batch(s.db.posts, u) == {} || !OnTask(s.db.publishOrders, s.closing[u], t)
  {
    DbKeeps.OrdersUser(s.db, t);
    forall i | i in Batches.Batch(s.db.posts, u) ensures !OnTask(s.db.publishOrders, s.closing[u], t) {
      assert PostOk(s.db.publishOrders, s.db.publishTasks, s.db.postTasks, s.db.posts[i]);
    }
  }

  lemma EndedStamp(db: Db, u: int, state: TaskState, status: SiteStatus, t: int)
    requires Stamped(db, t) && t != u
    requires forall i :: 0 <= i < |db.posts| && db.posts[i].publishTask == u ==>
      !OnTask(db.publishOrders, db.posts[i].publishOrder, t)
    ensures Stamped(SiteTasks.MovePublish(db, u, state, status), t)
  {
  }

  lemma OtherUser(s: State, u: int, t: int)
    requires Inv(s) && 0 <= t < |s.db.publishTasks| && Quiet(s.db, s.db.publishTasks[t].user)
    requires TaskDoing(s.db, Job(PublishJob, u))
    ensures s.db.publishTasks[u].user != s.db.publishTasks[t].user
  {
    assert Carries(s.db.publishOrders, u);
    var i :| 0 <= i < |s.db.publishOrders| && s.db.publishOrders[i].task == u;
    DbKeeps.OrdersUser(s.db, u);
    assert PublishOrderAgrees(s.db.publishTasks, s.db.publishOrders[i]);
  }

  /** No post of another running publish points at an order of the linked one. */
  lemma OtherPosts(s: State, u: int, t: int)
    requires Inv(s) && Owned(s.db) && 0 <= t < |s.db.publishTasks| && Quiet(s.db, s.db.publishTasks[t].user)
    requires TaskDoing(s.db, Job(PublishJob, u))
    ensures forall i :: 0 <= i < |s.db.posts| && s.db.posts[i].publishTask == u ==>
      !OnTask(s.db.publishOrders, s.db.posts[i].publishOrder, t)
  {
    OtherUser(s, u, t);
    Ownership.Parts(s);
    hide Inv, Quiet;
    DbKeeps.OrdersUser(s.db, t);
    forall i | 0 <= i < |s.db.posts| && s.db.posts[i].publishTask == u
      ensures !OnTask(s.db.publishOrders, s.db.posts[i].publishOrder, t)
    {
      assert OwnLinks(s.db.publishOrders, s.db.publishTasks, s.db.posts[i]);
    }
  }

  lemma FailStamp(s: State, j: Job, t: int)
    requires Inv(s) && Owned(s.db) && Stamped(s.db, t) && TaskDoing(s.db, j)
    requires 0 <= t < |s.db.publishTasks| && s.db.publishTasks[t].state == Pending && Quiet(s.db, s.db.publishTasks[t].user)
    ensures Stamped(FailTask(s.db, j), t)
  {
    hide Inv, Owned, Quiet;
    match j.kind
    case DeployJob => SameStamp(s.db, FailTask(s.db, j), t);
    case PostJob => StampKept(s.db, FailTask(s.db, j), t);
    case PublishJob => OtherPosts(s, j.task, t); EndedStamp(s.db, j.task, Failed, PublishFailed, t);
  }

  lemma WorkerStamped(s: State, a: WorkerAction, t: int)
    requires Inv(s) && Owned(s.db) && WorkerEnabled(s, a) && Stamped(s.db, t)
    requires 0 <= t < |s.db.publishTasks| && s.db.publishTasks[t].state == Pending && Quiet(s.db, s.db.publishTasks[t].user)
    ensures Stamped(WorkerNext(s, a).db, t)
  {
    hide Inv, Owned, Stamped, Quiet, WorkerNext, FailTask, PostTasks.FinishTask, SiteTasks.CloseDeploy,
         SiteTasks.MovePublish, SiteOrders.GeneratePublishOrder, Batches.Batch, TaskDoing;
    WorkerDb(s, a);
    match a
    case AStartJob(_) =>
    case AReport(_, p) => CertificateStamp(s.db, p, t);
    case ACompleteDeploy(u) => ClosedStamp(s.db, u, t);
    case AOrderFirstPublish(u) => GeneratedStamp(s.db, s.db.deployTasks[u].user, t);
    case ACompletePosts(u) => GeneratedStamp(s.db, s.db.postTasks[u].user, t);
    case AFinishPosts(u) => OtherBatch(s, u, t); FinishedStamp(s.db, u, s.closing[u], t);
    case ACompletePublish(u) =>
      StepKeeps.InFlight(s, Job(PublishJob, u));
      OtherPosts(s, u, t);
      NotSame(s.db, u, t);
      EndedStamp(s.db, u, Finished, Published, t);
    case AFailJob(j) => StepKeeps.InFlight(s, j); FailStamp(s, j, t);
  }

  lemma ClosedStamp(db: Db, u: int, t: int)
    requires Stamped(db, t)
    ensures Stamped(SiteTasks.FinishDeploy(db, u), t)
  {
    SameStamp(db, SiteTasks.FinishDeploy(db, u), t);
  }

  lemma NotSame(db: Db, u: int, t: int)
    requires TaskDoing(db, Job(PublishJob, u)) && 0 <= t < |db.publishTasks| && db.publishTasks[t].state == Pending
    ensures u != t
  {
  }

  /** linkOrGenerate stamps all that wait for its task. */
  lemma LinkStampsAll(db: Db, site: nat, user: nat)
    requires PublishInv(db.sites, db.publishOrders, db.publishTasks)
    requires site < |db.sites| && db.sites[site].user == user
    ensures Stamped(SiteTasks.LinkOrGenerate(db, site, user), Carrying.NextTask(db, site, user))
  {
    PublishKeeps.LinkedTask(db, site, user);
    hide PublishInv, SiteTasks.LinkOrGenerate, Carrying.NextTask;
    var t := Carrying.NextTask(db, site, user);
    var db' := SiteTasks.LinkOrGenerate(db, site, user);
    forall i | 0 <= i < |db'.posts| && Waits(db'.publishOrders, db'.posts[i], t) ensures db'.posts[i].publishTask == t {
      assert db'.posts[i].publishOrder in OrdersOfTask(db'.publishOrders, t);
    }
  }

  lemma LinkForPublishStamps(s: State)
    requires Inv(s) && DispatcherEnabled(s, ALinkForPublish)
    ensures LinkedStamped(LinkForPublish(s))
  {
    var o := s.phase.choice.o;
    var order := s.db.publishOrders[o];
    StepKeeps.ChosenSite(s, o);
    LinkStampsAll(s.db, order.site, order.user);
    if LinkForPublish(s).phase.Linked? {
      ChosenOnNext(s);
    }
    hide Inv, PublishInv, Stamped, SiteTasks.LinkOrGenerate;
  }

  lemma ChosenOnNext(s: State)
    requires Inv(s) && DispatcherEnabled(s, ALinkForPublish)
    ensures var o := s.phase.choice.o;
            var order := s.db.publishOrders[o];
            o < |SiteTasks.LinkOrGenerate(s.db, order.site, order.user).publishOrders| &&
            SiteTasks.LinkOrGenerate(s.db, order.site, order.user).publishOrders[o].task ==
              Carrying.NextTask(s.db, order.site, order.user)
  {
    var o := s.phase.choice.o;
    var order := s.db.publishOrders[o];
    StepKeeps.ChosenSite(s, o);
    Carrying.ChosenPending(s);
    PublishKeeps.LinkedTask(s.db, order.site, order.user);
    hide Inv, PublishInv, SiteTasks.LinkOrGenerate;
  }

  lemma NotLinked(s: State, a: DispatcherAction)
    requires DispatcherEnabled(s, a) && a != ALinkForPublish
    ensures !DispatcherNext(s, a).phase.Linked?
  {
    hide FirstDeploy, FirstPublish, FirstPost;
  }

  /** What being careful means while a publish of task t is linked. */
  predicate CarefulWhile(s: State, a: Action, t: int) {
    match a
    case Outside(AEndRetry(r)) => RepointCarried(s.db, r, t)
    case _ => true
  }

  lemma CarefulMeans(s: State, a: Action, o: int)
    requires Harmless(s, a) && !a.Dispatcher? && s.phase == Linked(o) && 0 <= o < |s.db.publishOrders|
    ensures Careful(s, a) <==> CarefulWhile(s, a, s.db.publishOrders[o].task)
  {
    hide Harmless, RepointCarried;
  }

  lemma StampedWhile(s: State, a: Action, t: int)
    requires Inv(s) && Owned(s.db) && Enabled(s, a) && Harmless(s, a) && !a.Dispatcher? && Stamped(s.db, t)
    requires 0 <= t < |s.db.publishTasks| && s.db.publishTasks[t].state == Pending && Quiet(s.db, s.db.publishTasks[t].user)
    ensures Stamped(Next(s, a).db, t) <==> CarefulWhile(s, a, t)
  {
    hide Inv, Owned, Stamped, Quiet, Harmless, OutsideEnabled, OutsideNext, WorkerEnabled, WorkerNext, RepointCarried;
    match a
    case Outside(AEndRetry(r)) => LateRepoint(s, r, t);
    case Outside(x) => OutsideStamped(s, x, t);
    case Worker(x) => WorkerStamped(s, x, t);
  }

  lemma MeanwhileStamped(s: State, a: Action, o: int)
    requires Fit(s) && Enabled(s, a) && Harmless(s, a) && !a.Dispatcher?
    requires s.phase == Linked(o) && 0 <= o < |s.db.publishOrders|
    ensures LinkedStamped(Next(s, a)) <==> Careful(s, a)
  {
    hide Inv, Own, Owned, AllHang, InOrder, Stamped, Quiet, Harmless, Careful, CarefulWhile, Enabled, Next;
    MarkReady(s);
    Carrying.StepStay(s, a, o);
    OwnIsOwned(s.db);
    CarefulMeans(s, a, o);
    StampedWhile(s, a, s.db.publishOrders[o].task);
  }

  lemma LateRepoint(s: State, r: Repoint, t: int)
    requires Stamped(s.db, t) && OutsideEnabled(s, AEndRetry(r)) && Harmless(s, Outside(AEndRetry(r)))
    ensures Stamped(OutsideNext(s, AEndRetry(r)).db, t) <==> RepointCarried(s.db, r, t)
  {
    hide Stamped, RepointCarried, SiteOrders.EndRetry, BatchSubmitted;
    RepointStampedIff(s.db, r, t);
  }

  lemma StepStampedIff(s: State, a: Action)
    requires Fit(s) && Enabled(s, a) && Harmless(s, a)
    ensures Careful(s, a) ==> LinkedStamped(Next(s, a))
    ensures !a.Dispatcher? && LinkedStamped(Next(s, a)) ==> Careful(s, a)
  {
    hide Inv, Own, AllHang, InOrder, Stamped, OutsideEnabled, OutsideNext, WorkerEnabled, WorkerNext,
         DispatcherEnabled, DispatcherNext, Harmless, RepointCarried, NoRetryOn;
    match a
    case Dispatcher(d) =>
      if d == ALinkForPublish { LinkStamped(s); } else { NotLinked(s, d); }
    case _ =>
      Carrying.SamePhase(s, a);
      if s.phase.Linked? {
        Carrying.LinkedOnPending(s, s.phase.order);
        MeanwhileStamped(s, a, s.phase.order);
      }
  }

  lemma LinkStamped(s: State)
    requires Inv(s) && DispatcherEnabled(s, ALinkForPublish)
    ensures LinkedStamped(DispatcherNext(s, ALinkForPublish))
  {
    hide Inv, LinkForPublish, LinkedStamped;
    LinkForPublishStamps(s);
  }

  // ---- runs ----

  /** Marking keeps the posts and the half handled retries on open orders exactly when no such retry is
      about to use an order of the marked task. */
  lemma MarkHangsIff(s: State)
    requires Fit(s) && DispatcherEnabled(s, AMarkPublish)
    ensures AllHang(DispatcherNext(s, AMarkPublish).db) <==>
      forall r :: r in s.db.repoints ==>
        !OnTask(s.db.publishOrders, r.order, s.db.publishOrders[s.phase.order].task)
  {
    var t := s.db.publishOrders[s.phase.order].task;
    MarkReady(s);
    Ownership.Parts(s);
    MarkDb(s);
    hide Inv, InOrder, Own, AllHang, PublishInv, PostInv, Stamped, Quiet, OnTask, DispatcherEnabled, DispatcherNext,
         SiteTasks.DoingPublish;
    if NoRetryOn(s.db, t) { PublishMarked(s.db, t); }
    if AllHang(SiteTasks.DoingPublish(s.db, t)) { MarkedRetries(s.db, t); }
  }

  lemma MarkDb(s: State)
    requires Inv(s) && DispatcherEnabled(s, AMarkPublish)
    ensures DispatcherNext(s, AMarkPublish).db == SiteTasks.DoingPublish(s.db, s.db.publishOrders[s.phase.order].task)
  {
    StepKeeps.LinkedIsFound(s.db, s.phase.order);
    hide Inv, SiteTasks.DoingPublish;
  }

  lemma MarkedRetries(db: Db, t: int)
    requires AllHang(SiteTasks.DoingPublish(db, t)) && 0 <= t < |db.publishTasks|
    ensures NoRetryOn(db, t)
  {
    var db' := SiteTasks.DoingPublish(db, t);
    assert db'.repoints == db.repoints;
    forall r | r in db.repoints ensures !OnTask(db.publishOrders, r.order, t) {
      assert db'.publishOrders[r.order].state == Pending;
    }
  }

  lemma StepHangIff(s: State, a: Action)
    requires Fit(s) && Enabled(s, a)
    ensures Careful(s, a) ==> AllHang(Next(s, a).db)
    ensures a.Dispatcher? && AllHang(Next(s, a).db) ==> Careful(s, a)
  {
    hide Inv, Own, AllHang, InOrder, LinkedStamped, OutsideEnabled, OutsideNext, WorkerEnabled, WorkerNext,
         DispatcherEnabled, DispatcherNext, RepointCarried, NoRetryOn;
    match a
    case Outside(o) => OutsideHang(s, o);
    case Dispatcher(d) =>
      if Careful(s, a) { DispatcherHang(s, d); }
      if d == AMarkPublish { MarkIsCareful(s); }
    case Worker(w) => WorkerHang(s, w);
  }

  lemma MarkIsCareful(s: State)
    requires Fit(s) && DispatcherEnabled(s, AMarkPublish)
    ensures AllHang(DispatcherNext(s, AMarkPublish).db) <==> Careful(s, Dispatcher(AMarkPublish))
  {
    MarkHangsIff(s);
    hide Fit, AllHang, DispatcherNext;
  }

  /** The exact condition, step by step: everything that keeps the submitted posts on open orders is kept
      by a step if and only if the step is careful. */
  lemma CarefulIff(s: State, a: Action)
    requires Fit(s) && Enabled(s, a)
    ensures Fit(Next(s, a)) <==> Careful(s, a)
  {
    hide Inv, Own, AllHang, InOrder, LinkedStamped, Enabled, Next, Harmless, RepointCarried, NoRetryOn;
    StepInv(s, a);
    HarmlessIff(s, a);
    StepOwn(s, a);
    StepHangIff(s, a);
    if Harmless(s, a) { StepStampedIff(s, a); }
  }

  lemma {:induction false} RunFit(s: State, actions: seq<Action>)
    requires Fit(s) && IsRun(s, actions) && Within(s, actions, Careful)
    ensures Fit(After(s, actions))
    decreases |actions|
  {
    if actions != [] {
      hide Fit, Enabled, Next, Careful;
      CarefulIff(s, actions[0]);
      RunFit(Next(s, actions[0]), actions[1..]);
    }
  }

  /** A retry of the post task is under way, and what it is about to do still helps. */
  ghost predicate UnderWay(db: Db, t: int) {
    (exists e :: e in db.retries && e.postTask == t) ||
    (exists r :: r in db.repoints && r.postTask == t && Open(db.publishOrders, r.order))
  }

  /** In a run of careful steps every submitted post that is not published yet hangs on a PENDING or FAILED
      order of its own user, or its retry is under way towards an open order. */
  lemma NothingIsForgotten(wipLimit: nat, concurrency: nat, actions: seq<Action>)
    requires IsRun(Start(wipLimit, concurrency), actions)
    requires Within(Start(wipLimit, concurrency), actions, Careful)
    ensures var db := After(Start(wipLimit, concurrency), actions).db;
            forall p :: p in db.posts && p.submit == Finished && p.postTask != NONE && Unpublished(p.publish) ==>
              (Open(db.publishOrders, p.publishOrder) && db.publishOrders[p.publishOrder].user == p.user) ||
              UnderWay(db, p.postTask)
  {
    StartFit(wipLimit, concurrency);
    hide Fit, Careful;
    RunFit(Start(wipLimit, concurrency), actions);
    FitMeans(After(Start(wipLimit, concurrency), actions));
    hide Start, After, IsRun, Within, Open, UnderWay;
  }

  lemma StartFit(wipLimit: nat, concurrency: nat)
    ensures Fit(Start(wipLimit, concurrency))
  {
    hide Inv;
    StartInv(wipLimit, concurrency);
  }

  lemma FitMeans(s: State)
    requires Fit(s)
    ensures forall p :: p in s.db.posts && p.submit == Finished && p.postTask != NONE && Unpublished(p.publish) ==>
      (Open(s.db.publishOrders, p.publishOrder) && s.db.publishOrders[p.publishOrder].user == p.user) ||
      UnderWay(s.db, p.postTask)
  {
    forall t | Awaited(s.db, t) ensures UnderWay(s.db, t) { AwaitedIsUnderWay(s.db, t); }
    hide Inv, InOrder, LinkedStamped, Awaited, UnderWay;
    forall p | p in s.db.posts ensures Hangs(s.db, p) && OwnLinks(s.db.publishOrders, s.db.publishTasks, p) { }
  }

  lemma AwaitedIsUnderWay(db: Db, t: int)
    requires AllHang(db) && Awaited(db, t)
    ensures UnderWay(db, t)
  {
    if r :| r in db.repoints && r.postTask == t {
      assert Open(db.publishOrders, r.order);
    }
  }

  // ---- wherever the handlers of the link events run ----

  lemma LinkIsReached(s: State)
    requires Inv(s) && DispatcherEnabled(s, ALinkForPublish)
    ensures LinkForPublish(s).phase.Linked?
  {
  }

  lemma LinkFits(s: State)
    requires Fit(s) && DispatcherEnabled(s, ALinkForPublish)
    ensures Fit(LinkForPublish(s))
  {
    hide Fit, LinkForPublish, DispatcherEnabled;
    CarefulIff(s, Dispatcher(ALinkForPublish));
  }

  lemma MarkedWaiting(db: Db, t: int, i: int)
    requires 0 <= t < |db.publishTasks| && 0 <= i < |db.posts| && Stamped(db, t) && Waits(db.publishOrders, db.posts[i], t)
    ensures var db' := SiteTasks.DoingPublish(db, t);
            |db'.posts| == |db.posts| && |db'.publishOrders| == |db.publishOrders| &&
            db'.posts[i] == db.posts[i].(publish := Doing) && db'.posts[i].publishTask == t &&
            db'.publishOrders[db.posts[i].publishOrder].state == Doing
  {
    Carrying.MarkedRows(db, t);
    hide SiteTasks.MovePublish;
  }

  /** The marking of a linked publish takes every post that waits for one of its orders. */
  lemma MarkTakesWaiting(s: State, o: int, i: int)
    requires Fit(s) && s.phase == Linked(o) && 0 <= o < |s.db.publishOrders| && 0 <= i < |s.db.posts|
    requires Waits(s.db.publishOrders, s.db.posts[i], s.db.publishOrders[o].task)
    ensures var db := MarkPublish(s).db;
            |db.posts| == |s.db.posts| && |db.publishOrders| == |s.db.publishOrders| &&
            db.posts[i] == s.db.posts[i].(publish := Doing) &&
            db.publishOrders[s.db.posts[i].publishOrder].state == Doing
  {
    hide Inv, InOrder, Own, AllHang, LinkedStamped, Stamped, Quiet, Waits, MarkPublish, SiteTasks.DoingPublish;
    MarkReady(s);
    MarkDb(s);
    MarkedWaiting(s.db, s.db.publishOrders[o].task, i);
    WaitsInRange(s.db.publishOrders, s.db.posts[i], s.db.publishOrders[o].task);
  }

  lemma WaitsInRange(orders: seq<PublishOrder>, p: PostOrder, t: int)
    requires Waits(orders, p, t)
    ensures 0 <= p.publishOrder < |orders|
  {
  }

  /** From the start to the marking, over careful runs with anything else between the link and the marking:
      every submitted, unpublished post that at the marking points at an order that was PENDING or FAILED
      when the dispatcher linked is being published. The handlers of the link events may have run at any
      time before, twice, or not at all. */
  lemma DispatchTakesWaiting(wipLimit: nat, concurrency: nat, before: seq<Action>, s: State, o: int,
                             meanwhile: seq<Action>, held: State, i: int)
    requires IsRun(Start(wipLimit, concurrency), before) && Within(Start(wipLimit, concurrency), before, Careful)
    requires s == After(Start(wipLimit, concurrency), before)
    requires DispatcherEnabled(s, ALinkForPublish) && s.phase.choice.o == o
    requires IsRun(LinkForPublish(s), meanwhile) && Batches.Meanwhile(meanwhile)
    requires Within(LinkForPublish(s), meanwhile, Careful) && held == After(LinkForPublish(s), meanwhile)
    requires 0 <= i < |held.db.posts| && held.db.posts[i].submit == Finished && Unpublished(held.db.posts[i].publish)
    requires held.db.posts[i].publishOrder in
      Carrying.Owed(s.db.publishOrders, s.db.publishOrders[o].site, s.db.publishOrders[o].user)
    ensures held.phase == Linked(o) && 0 <= o < |held.db.publishOrders|
    ensures var db := MarkPublish(held).db;
            i < |db.posts| && db.posts[i] == held.db.posts[i].(publish := Doing) &&
            0 <= held.db.posts[i].publishOrder < |db.publishOrders| &&
            db.publishOrders[held.db.posts[i].publishOrder].state == Doing
  {
    hide Careful, IsRun, After, Within, LinkForPublish, MarkPublish, Batches.Meanwhile, Carrying.Owed, Inv, InOrder, Own,
         AllHang, LinkedStamped;
    StartFit(wipLimit, concurrency);
    RunFit(Start(wipLimit, concurrency), before);
    LinkIsReached(s);
    LinkFits(s);
    Carrying.OwedAreCarried(s, meanwhile);
    RunFit(LinkForPublish(s), meanwhile);
    assert held.db.posts[i].publishOrder in OrdersOfTask(held.db.publishOrders, held.db.publishOrders[o].task);
    WaitsInRange(held.db.publishOrders, held.db.posts[i], held.db.publishOrders[o].task);
    MarkTakesWaiting(held, o, i);
  }

  // ---- where it fails ----

  /** An unpublished post on an order that no publish will carry any more. */
  predicate Lost(db: Db, i: int) {
    0 <= i < |db.posts| && Unpublished(db.posts[i].publish) &&
    0 <= db.posts[i].publishOrder < |db.publishOrders| && db.publishOrders[db.posts[i].publishOrder].state == Finished
  }

  /** The post is lost when task t is marked, the retry is handled to its end, and the publish finishes. */
  predicate MarkThenRepoint(db: Db, t: int, r: Repoint, i: int) {
    Lost(SiteTasks.FinishPublish(SiteOrders.EndRetry(SiteTasks.DoingPublish(db, t), r), t), i)
  }

  /** The same with the retry handled to its end just before the marking. */
  predicate RepointThenMark(db: Db, t: int, r: Repoint, i: int) {
    Lost(SiteTasks.FinishPublish(SiteTasks.DoingPublish(SiteOrders.EndRetry(db, r), t), t), i)
  }

  /** A publish is marked and finishes while a retry is half handled, the second half coming before or after
      the marking: a post of the retry is lost exactly when the order found by the first half is on the
      marked task and the post does not carry that task. */
  lemma RetryGetsLostIff(s: State, t: int, r: Repoint, i: int)
    requires Fit(s) && s.phase.Linked? && 0 <= s.phase.order < |s.db.publishOrders|
    requires t == s.db.publishOrders[s.phase.order].task
    requires r in s.db.repoints && 0 <= i < |s.db.posts|
    requires s.db.posts[i].postTask == r.postTask && Unpublished(s.db.posts[i].publish)
    ensures MarkThenRepoint(s.db, t, r, i) <==> OnTask(s.db.publishOrders, r.order, t) && s.db.posts[i].publishTask != t
    ensures RepointThenMark(s.db, t, r, i) <==> OnTask(s.db.publishOrders, r.order, t) && s.db.posts[i].publishTask != t
  {
    hide Inv, InOrder, Own, AllHang, LinkedStamped, Quiet, Stamped, MarkThenRepoint, RepointThenMark;
    MarkReady(s);
    RepointOpen(s.db, r);
    MissedRow(s.db, r, t, i);
  }

  lemma RepointOpen(db: Db, r: Repoint)
    requires AllHang(db) && InOrder(db) && r in db.repoints
    ensures r.postTask != NONE && r.order < |db.publishOrders| && db.publishOrders[r.order].state == Pending
  {
  }

  lemma MovedRow(db: Db, t: int, state: TaskState, status: SiteStatus, i: int)
    requires 0 <= t < |db.publishTasks| && 0 <= i < |db.posts|
    ensures var db' := SiteTasks.MovePublish(db, t, state, status);
            db'.publishOrders == UpdateOrders(db.publishOrders, OfTask(t), SetState(state)) &&
            |db'.posts| == |db.posts| && |db'.publishTasks| == |db.publishTasks| &&
            db'.posts[i] == if db.posts[i].publishTask == t then db.posts[i].(publish := state) else db.posts[i]
  {
  }

  lemma RepointedRow(db: Db, r: Repoint, i: int)
    requires r.postTask != NONE && 0 <= i < |db.posts| && db.posts[i].postTask == r.postTask
    ensures var db' := SiteOrders.EndRetry(db, r);
            db'.publishOrders == db.publishOrders && db'.publishTasks == db.publishTasks &&
            |db'.posts| == |db.posts| && db'.posts[i] == db.posts[i].(publishOrder := r.order)
  {
  }

  lemma MissedRow(db: Db, r: Repoint, t: int, i: int)
    requires r.postTask != NONE && r.order < |db.publishOrders| && db.publishOrders[r.order].state == Pending
    requires 0 <= t < |db.publishTasks| && 0 <= i < |db.posts|
    requires db.posts[i].postTask == r.postTask && Unpublished(db.posts[i].publish)
    ensures MarkThenRepoint(db, t, r, i) <==> OnTask(db.publishOrders, r.order, t) && db.posts[i].publishTask != t
    ensures RepointThenMark(db, t, r, i) <==> OnTask(db.publishOrders, r.order, t) && db.posts[i].publishTask != t
  {
    hide SiteTasks.MovePublish, SiteOrders.EndRetry;
    var marked := SiteTasks.DoingPublish(db, t);
    MovedRow(db, t, Doing, Publishing, i);
    RepointedRow(marked, r, i);
    MovedRow(SiteOrders.EndRetry(marked, r), t, Finished, Published, i);
    var repointed := SiteOrders.EndRetry(db, r);
    RepointedRow(db, r, i);
    MovedRow(repointed, t, Doing, Publishing, i);
    MovedRow(SiteTasks.DoingPublish(repointed, t), t, Finished, Published, i);
  }
}

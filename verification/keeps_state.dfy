/** Every action keeps the invariant. */
module StateKeeps {
  import opened PipelineTypes
  import opened Tables
  import opened Pipeline
  import opened Invariants
  import PostOrders
  import SiteOrders
  import SiteTasks
  import PublishKeeps
  import DbKeeps

  // ---- what the dispatcher relies on while others run ----

  predicate SitesCalm(a: seq<Site>, b: seq<Site>) {
    |a| <= |b| && forall x :: 0 <= x < |a| ==>
      b[x].user == a[x].user && (Settled(a[x].status) ==> b[x].status == a[x].status)
  }

  predicate DeploysCalm(a: Db, b: Db) {
    |a.deployOrders| <= |b.deployOrders| && |a.deployTasks| <= |b.deployTasks| &&
    (forall i :: 0 <= i < |a.deployOrders| && a.deployOrders[i].state == Pending ==> b.deployOrders[i].state == Pending) &&
    (forall t :: 0 <= t < |a.deployTasks| && a.deployTasks[t].state == Finished ==> b.deployTasks[t] == a.deployTasks[t])
  }

  predicate OnPendingTask(o: PublishOrder, tasks: seq<PublishTask>) {
    o.state == Pending && 0 <= o.task < |tasks| && tasks[o.task].state == Pending
  }

  predicate PublishesCalm(a: Db, b: Db) {
    |a.publishOrders| <= |b.publishOrders| && |a.publishTasks| <= |b.publishTasks| &&
    (forall i :: 0 <= i < |a.publishOrders| ==>
      b.publishOrders[i].user == a.publishOrders[i].user && b.publishOrders[i].site == a.publishOrders[i].site &&
      (a.publishOrders[i].state == Pending ==> b.publishOrders[i].state == Pending)) &&
    (forall i :: 0 <= i < |b.publishOrders| && b.publishOrders[i].state == Doing ==>
      i < |a.publishOrders| && a.publishOrders[i].state == Doing) &&
    (forall i :: 0 <= i < |a.publishOrders| && OnPendingTask(a.publishOrders[i], a.publishTasks) ==>
      OnPendingTask(b.publishOrders[i], b.publishTasks))
  }

  predicate PostsCalm(a: Db, b: Db) {
    |a.posts| <= |b.posts| && |a.postTasks| <= |b.postTasks| &&
    (forall i :: 0 <= i < |a.posts| ==> b.posts[i].user == a.posts[i].user) &&
    (forall i :: 0 <= i < |b.posts| && b.posts[i].submit == Doing ==>
      i < |a.posts| && a.posts[i].submit == Doing && b.posts[i].postTask == a.posts[i].postTask) &&
    (forall i :: 0 <= i < |b.posts| && b.posts[i].publish == Doing ==> i < |a.posts| && a.posts[i].publish == Doing) &&
    (forall t :: 0 <= t < |a.postTasks| ==>
      b.postTasks[t].user == a.postTasks[t].user &&
      (a.postTasks[t].state == Pending ==> b.postTasks[t].state == Pending))
  }

  /** Nothing starts to run, and what was pending or settled stays so. */
  predicate Calm(a: Db, b: Db) {
    SitesCalm(a.sites, b.sites) && DeploysCalm(a, b) && PublishesCalm(a, b) && PostsCalm(a, b)
  }

  lemma QuietStays(a: Db, b: Db, user: nat)
    requires Calm(a, b) && Quiet(a, user)
    ensures Quiet(b, user)
  {
  }

  lemma PhaseStays(s: State, db: Db)
    requires PhaseOk(s) && Calm(s.db, db)
    ensures PhaseOk(s.(db := db))
  {
    forall user | Quiet(s.db, user) ensures Quiet(db, user) { QuietStays(s.db, db, user); }
  }

  lemma ClosingStays(s: State, db: Db)
    requires ClosingOk(s) && Calm(s.db, db)
    ensures ClosingOk(s.(db := db))
  {
  }

  predicate SameTasks(a: Db, b: Db) {
    b.deployTasks == a.deployTasks &&
    |b.postTasks| == |a.postTasks| && (forall t :: 0 <= t < |a.postTasks| ==> b.postTasks[t].state == a.postTasks[t].state) &&
    |a.publishTasks| <= |b.publishTasks| &&
    (forall t :: 0 <= t < |a.publishTasks| ==> b.publishTasks[t] == a.publishTasks[t]) &&
    (forall t :: |a.publishTasks| <= t < |b.publishTasks| ==> b.publishTasks[t].state != Doing)
  }

  lemma LivesStay(s: State, db: Db)
    requires LivesOk(s) && SameTasks(s.db, db)
    ensures LivesOk(s.(db := db))
  {
    var s' := s.(db := db);
    forall j: Job ensures Lives(s', j) == if TaskDoing(db, j) then 1 else 0 {
      assert Lives(s, j) == Lives(s', j);
      assert TaskDoing(s.db, j) == TaskDoing(db, j);
    }
  }

  /** An action that changes only the tables, calmly and without touching task states. */
  lemma Aside(s: State, db: Db)
    requires Inv(s) && DbInv(db) && Calm(s.db, db) && SameTasks(s.db, db)
    ensures Inv(s.(db := db))
  {
    PhaseStays(s, db);
    ClosingStays(s, db);
    LivesStay(s, db);
  }

  // ---- users, certificates, reports, events ----

  lemma CreateSite(s: State, user: nat)
    requires Inv(s)
    ensures Inv(s.(db := s.db.(sites := s.db.sites + [Site(user, Configured)])))
  {
    hide Inv, DbInv;
    HasDbInv(s);
    DbKeeps.CreateSite(s.db, user);
    Aside(s, s.db.(sites := s.db.sites + [Site(user, Configured)]));
  }

  lemma SavePost(s: State, user: nat)
    requires Inv(s)
    ensures Inv(s.(db := PostOrders.SavePost(s.db, user, Pending, Pending)))
  {
    hide Inv, DbInv;
    HasDbInv(s);
    DbKeeps.SavePost(s.db, user, Pending, Pending);
    Aside(s, PostOrders.SavePost(s.db, user, Pending, Pending));
  }

  lemma RequestDeployCalm(db: Db, user: nat, site: int)
    ensures var db' := SiteOrders.SaveDeployOrder(db, user, site); Calm(db, db') && SameTasks(db, db')
  {
  }

  lemma RequestDeploy(s: State, user: nat, site: int)
    requires Inv(s)
    ensures Inv(s.(db := SiteOrders.SaveDeployOrder(s.db, user, site)))
  {
    hide *;
    HasDbInv(s);
    DbKeeps.SaveDeployOrder(s.db, user, site);
    RequestDeployCalm(s.db, user, site);
    Aside(s, SiteOrders.SaveDeployOrder(s.db, user, site));
  }

  lemma HasDbInv(s: State)
    requires Inv(s)
    ensures DbInv(s.db)
  {
  }

  lemma GenerateCalm(db: Db, user: nat)
    ensures var db' := SiteOrders.GeneratePublishOrder(db, user).db; Calm(db, db') && SameTasks(db, db')
  {
  }

  lemma RequestPublish(s: State, user: nat)
    requires Inv(s)
    ensures Inv(s.(db := SiteOrders.GeneratePublishOrder(s.db, user).db))
  {
    hide *;
    HasDbInv(s);
    DbKeeps.Generate(s.db, user);
    GenerateCalm(s.db, user);
    Aside(s, SiteOrders.GeneratePublishOrder(s.db, user).db);
  }

  lemma RetryCalm(db: Db, user: nat, p: int)
    ensures var r := PostOrders.RetryPost(db, user, p); r.Retried? ==> Calm(db, r.db) && SameTasks(db, r.db)
  {
    var r := PostOrders.RetryPost(db, user, p);
    if r.Retried? {
      RowCalm(db, r.db, p);
    }
  }

  lemma Retry(s: State, user: nat, p: int)
    requires Inv(s)
    ensures var r := PostOrders.RetryPost(s.db, user, p); r.Retried? ==> Inv(s.(db := r.db))
  {
    hide *;
    HasDbInv(s);
    DbKeeps.Retry(s.db, user, p);
    RetryCalm(s.db, user, p);
    var r := PostOrders.RetryPost(s.db, user, p);
    if r.Retried? {
      Aside(s, r.db);
    }
  }

  /** Changing one post, and the events, without starting the post. */
  lemma RowCalm(db: Db, db': Db, p: int)
    requires 0 <= p < |db.posts| == |db'.posts|
    requires db' == db.(posts := db.posts[p := db'.posts[p]], retries := db'.retries)
    requires db'.posts[p].user == db.posts[p].user
    requires db'.posts[p].submit == Doing ==> db.posts[p].submit == Doing && db'.posts[p].postTask == db.posts[p].postTask
    requires db'.posts[p].publish == Doing ==> db.posts[p].publish == Doing
    ensures Calm(db, db') && SameTasks(db, db')
  {
    assert forall i :: 0 <= i < |db.posts| && i != p ==> db'.posts[i] == db.posts[i];
  }

  lemma CertificateCalm(db: Db, p: int)
    requires 0 <= p < |db.posts|
    ensures var db' := PostOrders.BeginCertificate(db, p); Calm(db, db') && SameTasks(db, db')
    ensures var db' := PostOrders.StoreCertificate(db, p); Calm(db, db') && SameTasks(db, db')
    ensures var db' := PostOrders.LoseCertificate(db, p); Calm(db, db') && SameTasks(db, db')
    ensures var db' := PostOrders.FailSubmit(db, p); Calm(db, db') && SameTasks(db, db')
  {
    RowCalm(db, PostOrders.BeginCertificate(db, p), p);
    RowCalm(db, PostOrders.StoreCertificate(db, p), p);
    RowCalm(db, PostOrders.LoseCertificate(db, p), p);
    RowCalm(db, PostOrders.FailSubmit(db, p), p);
  }

  lemma Certificate(s: State, p: int)
    requires Inv(s) && 0 <= p < |s.db.posts|
    ensures Inv(s.(db := PostOrders.BeginCertificate(s.db, p)))
    ensures Inv(s.(db := PostOrders.StoreCertificate(s.db, p)))
    ensures Inv(s.(db := PostOrders.LoseCertificate(s.db, p)))
    ensures Inv(s.(db := PostOrders.FailSubmit(s.db, p)))
  {
    hide *;
    HasDbInv(s);
    DbKeeps.Certificate(s.db, p);
    CertificateCalm(s.db, p);
    Aside(s, PostOrders.BeginCertificate(s.db, p));
    Aside(s, PostOrders.StoreCertificate(s.db, p));
    Aside(s, PostOrders.LoseCertificate(s.db, p));
    Aside(s, PostOrders.FailSubmit(s.db, p));
  }

  /** linkOrGenerate moves PENDING orders only from one PENDING task to another. */
  lemma LinkCalm(db: Db, site: nat, user: nat)
    requires PublishInv(db.sites, db.publishOrders, db.publishTasks)
    requires site < |db.sites| && db.sites[site].user == user
    ensures var db' := SiteTasks.LinkOrGenerate(db, site, user); Calm(db, db') && SameTasks(db, db')
  {
    var tasks' := PublishKeeps.WithPending(db.publishTasks, site, user);
    var t := LatestTaskOf(tasks', site, user);
    var orders' := UpdateOrders(db.publishOrders, UnpublishedOfSite(user, site), SetTask(t));
    PublishKeeps.LinkedTask(db, site, user);
    PublishKeeps.PendingTask(db.sites, db.publishOrders, db.publishTasks, site, user);
    StampCalm(db, tasks', orders', t);
  }

  lemma StampCalm(db: Db, tasks': seq<PublishTask>, orders': seq<PublishOrder>, t: int)
    requires 0 <= t < |tasks'| && tasks'[t].state == Pending
    requires |db.publishTasks| <= |tasks'|
    requires forall u :: 0 <= u < |db.publishTasks| ==> tasks'[u] == db.publishTasks[u]
    requires forall u :: |db.publishTasks| <= u < |tasks'| ==> tasks'[u].state == Pending
    requires |orders'| == |db.publishOrders|
    requires forall i :: 0 <= i < |orders'| ==>
      orders'[i] == db.publishOrders[i] || orders'[i] == db.publishOrders[i].(task := t)
    ensures var ids := OrdersOfTask(orders', t);
            var db' := db.(publishTasks := tasks', publishOrders := orders',
                           posts := UpdatePosts(db.posts, UnpublishedOfOrders(ids), SetPublishTask(t)),
                           postTasks := UpdatePostTasks(db.postTasks, ids, t));
            Calm(db, db') && SameTasks(db, db')
  {
  }

  lemma DeliverLink(s: State, e: LinkEvent)
    requires Inv(s) && e in s.db.links
    ensures Inv(s.(db := SiteTasks.LinkOrGenerate(s.db.(links := s.db.links - multiset{e}), e.site, e.user)))
  {
    hide Inv, SiteTasks.LinkOrGenerate;
    TakenLink(s, e);
    LinkInv(s.(db := s.db.(links := s.db.links - multiset{e})), e.site, e.user);
  }

  lemma TakenLink(s: State, e: LinkEvent)
    requires Inv(s) && e in s.db.links
    ensures Inv(s.(db := s.db.(links := s.db.links - multiset{e})))
    ensures e.site < |s.db.sites| && s.db.sites[e.site].user == e.user
  {
    Aside(s, s.db.(links := s.db.links - multiset{e}));
  }

  lemma LinkInv(s: State, site: nat, user: nat)
    requires Inv(s) && site < |s.db.sites| && s.db.sites[site].user == user
    ensures Inv(s.(db := SiteTasks.LinkOrGenerate(s.db, site, user)))
  {
    LinkCalm(s.db, site, user);
    hide *;
    HasDbInv(s);
    DbKeeps.LinkOrGenerate(s.db, site, user);
    Aside(s, SiteTasks.LinkOrGenerate(s.db, site, user));
  }

  lemma BeginRetryCalm(db: Db, e: RetryEvent)
    ensures var db' := SiteOrders.BeginRetry(db, e); Calm(db, db') && SameTasks(db, db')
  {
    GenerateCalm(db.(retries := db.retries - multiset{e}), e.user);
  }

  lemma BeginRetry(s: State, e: RetryEvent)
    requires Inv(s) && e in s.db.retries
    ensures Inv(s.(db := SiteOrders.BeginRetry(s.db, e)))
  {
    hide *;
    HasDbInv(s);
    DbKeeps.BeginRetry(s.db, e);
    BeginRetryCalm(s.db, e);
    Aside(s, SiteOrders.BeginRetry(s.db, e));
  }

  lemma EndRetryCalm(db: Db, r: Repoint)
    ensures var db' := SiteOrders.EndRetry(db, r); Calm(db, db') && SameTasks(db, db')
  {
  }

  lemma EndRetry(s: State, r: Repoint)
    requires Inv(s) && r in s.db.repoints
    ensures Inv(s.(db := SiteOrders.EndRetry(s.db, r)))
  {
    hide *;
    HasDbInv(s);
    DbKeeps.EndRetry(s.db, r);
    EndRetryCalm(s.db, r);
    Aside(s, SiteOrders.EndRetry(s.db, r));
  }
}

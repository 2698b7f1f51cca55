/** Every service operation keeps DbInv. */
module DbKeeps {
  import opened PipelineTypes
  import opened Tables
  import opened Pipeline
  import opened Invariants
  import opened RowKeeps
  import PostOrders
  import PostTasks
  import SiteOrders
  import SiteTasks
  import DeployKeeps
  import PublishKeeps

  lemma CreateSite(db: Db, user: nat)
    requires DbInv(db)
    ensures DbInv(db.(sites := db.sites + [Site(user, Configured)]))
  {
    hide DeployInv, PublishInv, PostInv, PostTasksOk, Exclusion, EventsOk;
    var db' := db.(sites := db.sites + [Site(user, Configured)]);
    DeployKeeps.NewSite(db.sites, db.deployOrders, db.deployTasks, user);
    PublishKeeps.NewSite(db.sites, db.publishOrders, db.publishTasks, user);
    KeepsPostTasks(db.sites, db'.sites, db.postTasks);
    EventsStay(db, db');
  }

  lemma SavePost(db: Db, user: nat, submit: TaskState, publish: TaskState)
    requires DbInv(db) && submit in {Pending, Finished} && publish in {Pending, Finished}
    ensures DbInv(PostOrders.SavePost(db, user, submit, publish))
  {
    hide DeployInv, PublishInv, PostInv, PostTasksOk, Exclusion, EventsOk;
    var db' := PostOrders.SavePost(db, user, submit, publish);
    PostAppended(db.publishOrders, db.publishTasks, db.posts, db.postTasks, db'.posts[|db.posts|]);
    ExclusionShrinks(db.posts, db.publishOrders, db'.posts, db.publishOrders);
    EventsStay(db, db');
  }

  lemma SaveDeployOrder(db: Db, user: nat, site: int)
    requires DbInv(db)
    ensures DbInv(SiteOrders.SaveDeployOrder(db, user, site))
  {
    hide DeployInv, PublishInv, PostInv, PostTasksOk, Exclusion, EventsOk;
    var db' := SiteOrders.SaveDeployOrder(db, user, site);
    DeployKeeps.SaveOrder(db, user, site);
    if 0 <= site < |db.sites| && db.sites[site].user == user {
      if DeployOrderOf(db.deployOrders, site, user) == NONE {
        SavePost(db, user, Finished, Finished);
        EventsStay(db, db');
      } else if db.sites[site].status == DeployFailed {
        PublishKeeps.StaysUnpublishing(db.sites, db.publishOrders, db.publishTasks, site, Configured);
        KeepsPostTasks(db.sites, db'.sites, db.postTasks);
        EventsStay(db, db');
      }
    }
  }

  /** generatePublishSiteOrder returns a PENDING order of the user, and at most appends it. */
  lemma GeneratedRows(db: Db, user: nat)
    ensures var g := SiteOrders.GeneratePublishOrder(db, user);
            NONE <= g.order < |g.db.publishOrders| &&
            (DefaultSite(db.sites, user) != NONE <==> g.order != NONE) &&
            (g.order != NONE ==>
              g.db.publishOrders[g.order].user == user && g.db.publishOrders[g.order].state == Pending &&
              g.db.publishOrders[g.order].site == DefaultSite(db.sites, user)) &&
            |db.publishOrders| <= |g.db.publishOrders| <= |db.publishOrders| + 1 &&
            (forall i :: 0 <= i < |db.publishOrders| ==> g.db.publishOrders[i] == db.publishOrders[i]) &&
            (forall i :: |db.publishOrders| <= i < |g.db.publishOrders| ==> g.db.publishOrders[i].state == Pending)
  {
  }

  lemma GeneratedEvents(db: Db, user: nat)
    requires EventsOk(db)
    ensures EventsOk(SiteOrders.GeneratePublishOrder(db, user).db)
  {
    var site := DefaultSite(db.sites, user);
    if site != NONE {
      var linked := db.(links := db.links + multiset{LinkEvent(site, user)});
      assert EventsOk(linked);
      EventsStay(linked, SiteOrders.GeneratePublishOrder(db, user).db);
    }
  }

  lemma Generate(db: Db, user: nat)
    requires DbInv(db)
    ensures DbInv(SiteOrders.GeneratePublishOrder(db, user).db)
  {
    hide DeployInv, PublishInv, PostInv, PostTasksOk, Exclusion, EventsOk;
    var db' := SiteOrders.GeneratePublishOrder(db, user).db;
    PublishKeeps.Generate(db, user);
    GeneratedRows(db, user);
    GeneratedEvents(db, user);
    OrdersGrown(db.publishOrders, db.publishTasks, db.posts, db.postTasks, db'.publishOrders);
    ExclusionShrinks(db.posts, db.publishOrders, db.posts, db'.publishOrders);
  }

  /** One post changes without starting to run. */
  lemma PostRow(db: Db, p: int, row: PostOrder)
    requires DbInv(db) && 0 <= p < |db.posts|
    requires PostOk(db.publishOrders, db.publishTasks, db.postTasks, row)
    requires row.user == db.posts[p].user
    requires row.submit == Doing ==> db.posts[p].submit == Doing && row.postTask == db.posts[p].postTask
    ensures DbInv(db.(posts := db.posts[p := row]))
  {
    hide DeployInv, PublishInv, PostInv, PostOk, PostTasksOk, Exclusion, EventsOk;
    var db' := db.(posts := db.posts[p := row]);
    PostReplaced(db.publishOrders, db.publishTasks, db.posts, db.postTasks, p, row);
    ExclusionShrinks(db.posts, db.publishOrders, db'.posts, db.publishOrders);
    EventsStay(db, db');
  }

  lemma PostOf(db: Db, p: int)
    requires DbInv(db) && 0 <= p < |db.posts|
    ensures PostOk(db.publishOrders, db.publishTasks, db.postTasks, db.posts[p])
  {
  }

  lemma Retry(db: Db, user: nat, p: int)
    requires DbInv(db)
    ensures var r := PostOrders.RetryPost(db, user, p); r.Retried? ==> DbInv(r.db)
  {
    hide DeployInv, PublishInv, PostInv, PostTasksOk, Exclusion, EventsOk;
    var r := PostOrders.RetryPost(db, user, p);
    if r.Retried? {
      PostOf(db, p);
      PostRow(db, p, r.db.posts[p]);
      RetryEvents(db.(posts := r.db.posts), r.db, user, db.posts[p].postTask);
    }
  }

  lemma RetryEvents(db: Db, db': Db, user: nat, postTask: int)
    requires EventsOk(db)
    requires db' == db || db' == db.(retries := db.retries + multiset{RetryEvent(user, postTask)})
    requires Link(postTask, |db.postTasks|) && (postTask != NONE ==> db.postTasks[postTask].user == user)
    ensures EventsOk(db')
  {
  }

  lemma Certificate(db: Db, p: int)
    requires DbInv(db) && 0 <= p < |db.posts|
    ensures DbInv(PostOrders.BeginCertificate(db, p))
    ensures DbInv(PostOrders.StoreCertificate(db, p))
    ensures DbInv(PostOrders.LoseCertificate(db, p))
    ensures DbInv(PostOrders.FailSubmit(db, p))
  {
    PostOf(db, p);
    hide DbInv;
    var row := db.posts[p];
    PostRow(db, p, row.(storage := true, certificate := Doing));
    PostRow(db, p, row.(certified := true, certificate := Finished));
    PostRow(db, p, row.(certificate := Failed, submit := Failed, publish := Failed));
    PostRow(db, p, row.(submit := Failed, publish := Failed));
  }

  lemma LinkOrGenerate(db: Db, site: nat, user: nat)
    requires DbInv(db) && site < |db.sites| && db.sites[site].user == user
    ensures DbInv(SiteTasks.LinkOrGenerate(db, site, user))
  {
    hide DeployInv, PublishInv, PostInv, PostTasksOk, Exclusion, EventsOk;
    var tasks' := PublishKeeps.WithPending(db.publishTasks, site, user);
    var t := LatestTaskOf(tasks', site, user);
    PublishKeeps.LinkedTask(db, site, user);
    PublishKeeps.PendingTask(db.sites, db.publishOrders, db.publishTasks, site, user);
    Stamped(db, tasks', UpdateOrders(db.publishOrders, UnpublishedOfSite(user, site), SetTask(t)), t);
  }

  lemma Stamped(db: Db, tasks': seq<PublishTask>, orders': seq<PublishOrder>, t: int)
    requires DbInv(db) && PublishInv(db.sites, orders', tasks')
    requires 0 <= t < |tasks'| && |db.publishTasks| <= |tasks'|
    requires forall u :: 0 <= u < |db.publishTasks| ==> tasks'[u] == db.publishTasks[u]
    requires |orders'| == |db.publishOrders|
    requires forall i :: 0 <= i < |orders'| ==> orders'[i].user == db.publishOrders[i].user
    requires forall i :: 0 <= i < |orders'| && orders'[i].state == Doing ==> orders'[i] == db.publishOrders[i]
    ensures var ids := OrdersOfTask(orders', t);
            DbInv(db.(publishTasks := tasks', publishOrders := orders',
                      posts := UpdatePosts(db.posts, UnpublishedOfOrders(ids), SetPublishTask(t)),
                      postTasks := UpdatePostTasks(db.postTasks, ids, t)))
  {
    hide DeployInv, PublishInv, PostInv, PostTasksOk, Exclusion, EventsOk;
    var ids := OrdersOfTask(orders', t);
    var posts' := UpdatePosts(db.posts, UnpublishedOfOrders(ids), SetPublishTask(t));
    var postTasks' := UpdatePostTasks(db.postTasks, ids, t);
    PostsLinked(db.publishOrders, db.publishTasks, db.posts, db.postTasks, orders', tasks', ids, t);
    ExclusionShrinks(db.posts, db.publishOrders, posts', orders');
    SamePostTasks(db.sites, db.postTasks, postTasks');
    EventsStay(db, db.(publishTasks := tasks', publishOrders := orders', posts := posts', postTasks := postTasks'));
  }

  lemma BeginRetry(db: Db, e: RetryEvent)
    requires DbInv(db) && e in db.retries
    ensures DbInv(SiteOrders.BeginRetry(db, e))
  {
    hide DeployInv, PublishInv, PostInv, PostTasksOk, Exclusion;
    var taken := db.(retries := db.retries - multiset{e});
    var g := SiteOrders.GeneratePublishOrder(taken, e.user);
    EventsStay(db, taken);
    Generate(taken, e.user);
    GeneratedRows(taken, e.user);
    assert g.db.postTasks == db.postTasks;
    assert EventsOk(SiteOrders.BeginRetry(db, e));
  }

  lemma EndRetry(db: Db, r: Repoint)
    requires DbInv(db) && r in db.repoints
    ensures DbInv(SiteOrders.EndRetry(db, r))
  {
    RepointedOrder(db, r);
    hide DeployInv, PublishInv, PostInv, PostTasksOk, Exclusion, EventsOk, SiteOrders.EndRetry;
    var db' := SiteOrders.EndRetry(db, r);
    RepointedRows(db, r);
    if r.postTask != NONE {
      PostsPointed(db.publishOrders, db.publishTasks, db.posts, db.postTasks, r.postTask, r.order, db'.postTasks);
    }
    ExclusionShrinks(db.posts, db.publishOrders, db'.posts, db.publishOrders);
    SamePostTasks(db.sites, db.postTasks, db'.postTasks);
    EventsStay(db, db');
  }

  lemma RepointedOrder(db: Db, r: Repoint)
    requires EventsOk(db) && r in db.repoints
    ensures 0 <= r.order < |db.publishOrders|
  {
  }

  lemma RepointedRows(db: Db, r: Repoint)
    ensures var db' := SiteOrders.EndRetry(db, r);
            db' == db.(repoints := db.repoints - multiset{r}, postTasks := db'.postTasks,
                       posts := if r.postTask == NONE then db.posts
                                else UpdatePosts(db.posts, OfPostTask(r.postTask), SetPublishOrder(r.order))) &&
            |db'.postTasks| == |db.postTasks| &&
            forall t :: 0 <= t < |db.postTasks| ==>
              db'.postTasks[t].state == db.postTasks[t].state && db'.postTasks[t].user == db.postTasks[t].user
  {
  }

  lemma StartDeploy(db: Db, d: int)
    requires DbInv(db)
    requires 0 <= d < |db.deployOrders| && db.deployOrders[d].site < |db.sites|
    requires db.sites[db.deployOrders[d].site].status == Configured
    ensures var o := db.deployOrders[d]; DbInv(SiteTasks.StartDeploy(db, d, o.site, o.user))
  {
    hide DeployInv, PublishInv, PostInv, PostTasksOk, Exclusion, EventsOk;
    var o := db.deployOrders[d];
    var db' := SiteTasks.StartDeploy(db, d, o.site, o.user);
    DeployKeeps.Start(db, d);
    PublishKeeps.StaysUnpublishing(db.sites, db.publishOrders, db.publishTasks, o.site, Deploying);
    KeepsPostTasks(db.sites, db'.sites, db.postTasks);
    EventsStay(db, db');
  }

  lemma CloseDeploy(db: Db, t: int, state: TaskState, status: SiteStatus)
    requires DbInv(db)
    requires 0 <= t < |db.deployTasks| && db.deployTasks[t].state == Doing
    requires (state == Finished && status == Deployed) || (state == Failed && status == DeployFailed)
    ensures DbInv(SiteTasks.CloseDeploy(db, t, state, status))
  {
    var db' := SiteTasks.CloseDeploy(db, t, state, status);
    var site := db.deployTasks[t].site;
    assert site < |db.sites| && db.sites[site].status == Deploying;
    hide DeployInv, PublishInv, PostInv, PostTasksOk, Exclusion, EventsOk;
    DeployKeeps.Close(db, t, state, status);
    PublishKeeps.StaysUnpublishing(db.sites, db.publishOrders, db.publishTasks, site, status);
    KeepsPostTasks(db.sites, db'.sites, db.postTasks);
    EventsStay(db, db');
  }

  lemma GeneratePostTask(db: Db, user: nat)
    requires DbInv(db) && DefaultSite(db.sites, user) != NONE
    ensures DbInv(PostTasks.Generate(db, user))
  {
    var db' := PostTasks.Generate(db, user);
    assert PostTasksOk(db'.sites, db'.postTasks);
    hide DeployInv, PublishInv, PostInv, PostTasksOk, Exclusion, EventsOk;
    PostsSwept(db.publishOrders, db.publishTasks, db.posts, db.postTasks, user);
    ExclusionShrinks(db.posts, db.publishOrders, db'.posts, db.publishOrders);
    EventsStay(db, db');
  }

  lemma MarkPosts(db: Db, t: int)
    requires DbInv(db) && 0 <= t < |db.postTasks| && db.postTasks[t].state == Pending
    requires Quiet(db, db.postTasks[t].user)
    ensures DbInv(PostTasks.DoingTask(db, t))
  {
    var db' := PostTasks.DoingTask(db, t);
    forall i | 0 <= i < |db'.posts| && db'.posts[i].submit == Doing
      ensures if db'.posts[i].user == db.postTasks[t].user then db'.posts[i].postTask == t
              else db.posts[i].submit == Doing
    {
      assert PostOk(db.publishOrders, db.publishTasks, db.postTasks, db.posts[i]);
    }
    hide DeployInv, PublishInv, PostInv, PostTasksOk, Exclusion, EventsOk;
    PostsMarked(db.publishOrders, db.publishTasks, db.posts, db.postTasks, t);
    ExclusionMarksPosts(db.posts, db.publishOrders, db'.posts, db.postTasks[t].user, t);
    SamePostTasks(db.sites, db.postTasks, db'.postTasks);
    EventsStay(db, db');
  }

  lemma FinishPostTask(db: Db, t: int, order: int)
    requires DbInv(db) && 0 <= t < |db.postTasks| && db.postTasks[t].state == Doing
    requires 0 <= order < |db.publishOrders|
    ensures DbInv(PostTasks.FinishTask(db, t, order))
  {
    hide DeployInv, PublishInv, PostInv, PostTasksOk, Exclusion, EventsOk;
    var db' := PostTasks.FinishTask(db, t, order);
    PostsFinished(db.publishOrders, db.publishTasks, db.posts, db.postTasks, t, order);
    ExclusionShrinks(db.posts, db.publishOrders, db'.posts, db.publishOrders);
    SamePostTasks(db.sites, db.postTasks, db'.postTasks);
    EventsStay(db, db');
  }

  lemma FailPostTask(db: Db, t: int)
    requires DbInv(db) && 0 <= t < |db.postTasks| && db.postTasks[t].state == Doing
    ensures DbInv(PostTasks.FailTask(db, t))
  {
    hide DeployInv, PublishInv, PostInv, PostTasksOk, Exclusion, EventsOk;
    var db' := PostTasks.FailTask(db, t);
    PostsFailed(db.publishOrders, db.publishTasks, db.posts, db.postTasks, t);
    ExclusionShrinks(db.posts, db.publishOrders, db'.posts, db.publishOrders);
    SamePostTasks(db.sites, db.postTasks, db'.postTasks);
    EventsStay(db, db');
  }

  /** The orders of a task belong to the task's user. */
  lemma OrdersUser(db: Db, t: int)
    requires PublishInv(db.sites, db.publishOrders, db.publishTasks) && 0 <= t < |db.publishTasks|
    ensures forall j :: 0 <= j < |db.publishOrders| && db.publishOrders[j].task == t ==>
      db.publishOrders[j].user == db.publishTasks[t].user && db.publishOrders[j].site == db.publishTasks[t].site
  {
    forall j | 0 <= j < |db.publishOrders| && db.publishOrders[j].task == t
      ensures db.publishOrders[j].user == db.publishTasks[t].user && db.publishOrders[j].site == db.publishTasks[t].site
    {
      assert PublishOrderAgrees(db.publishTasks, db.publishOrders[j]);
    }
  }

  lemma MarkPublish(db: Db, t: int)
    requires DbInv(db) && 0 <= t < |db.publishTasks| && db.publishTasks[t].state == Pending
    requires db.publishTasks[t].site < |db.sites| && Settled(db.sites[db.publishTasks[t].site].status)
    requires Carries(db.publishOrders, t) && Quiet(db, db.publishTasks[t].user)
    ensures DbInv(SiteTasks.DoingPublish(db, t))
  {
    hide DeployInv, PublishInv, PostInv, PostTasksOk, Exclusion, EventsOk;
    var db' := SiteTasks.DoingPublish(db, t);
    OrdersUser(db, t);
    PublishKeeps.MarkDoing(db, t);
    ExclusionMarksOrders(db.posts, db.publishOrders, db'.posts, db'.publishOrders, db.publishTasks[t].user, t);
    MovedRest(db, t, Doing, Publishing);
  }

  lemma ClosePublish(db: Db, t: int, state: TaskState, status: SiteStatus)
    requires DbInv(db) && 0 <= t < |db.publishTasks| && db.publishTasks[t].state == Doing
    requires state in {Finished, Failed} && Settled(status)
    ensures DbInv(SiteTasks.MovePublish(db, t, state, status))
  {
    assert db.publishTasks[t].site < |db.sites| && db.sites[db.publishTasks[t].site].status == Publishing;
    hide DeployInv, PublishInv, PostInv, PostTasksOk, Exclusion, EventsOk;
    var db' := SiteTasks.MovePublish(db, t, state, status);
    PublishKeeps.MarkDone(db, t, state, status);
    ExclusionShrinks(db.posts, db.publishOrders, db'.posts, db'.publishOrders);
    MovedRest(db, t, state, status);
  }

  /** The parts of DbInv that do not look at publish orders or running rows. */
  lemma MovedRest(db: Db, t: int, state: TaskState, status: SiteStatus)
    requires DbInv(db) && 0 <= t < |db.publishTasks| && db.publishTasks[t].site < |db.sites|
    requires PastDeploy(db.sites[db.publishTasks[t].site].status) && PastDeploy(status)
    requires state in {Doing, Finished, Failed}
    requires db.publishTasks[t].state == if state == Doing then Pending else Doing
    ensures var db' := SiteTasks.MovePublish(db, t, state, status);
            DeployInv(db'.sites, db'.deployOrders, db'.deployTasks) &&
            PostInv(db'.publishOrders, db'.publishTasks, db'.posts, db'.postTasks) &&
            PostTasksOk(db'.sites, db'.postTasks) && EventsOk(db')
  {
    hide DeployInv, PublishInv, PostInv, PostTasksOk, Exclusion, EventsOk;
    var db' := SiteTasks.MovePublish(db, t, state, status);
    DeployKeeps.StaysDeployed(db.sites, db.deployOrders, db.deployTasks, db.publishTasks[t].site, status);
    KeepsPostTasks(db.sites, db'.sites, db.postTasks);
    PostsFollow(db.publishOrders, db.publishTasks, db.posts, db.postTasks, db'.publishOrders, t, state);
    EventsStay(db, db');
  }
}

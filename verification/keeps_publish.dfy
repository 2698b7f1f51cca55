/** Every table operation keeps the invariant of the publish orders, publish tasks and sites. */
module PublishKeeps {
  import opened PipelineTypes
  import opened Tables
  import opened Invariants
  import SiteOrders
  import SiteTasks

  lemma NewSite(sites: seq<Site>, orders: seq<PublishOrder>, tasks: seq<PublishTask>, user: nat)
    requires PublishInv(sites, orders, tasks)
    ensures PublishInv(sites + [Site(user, Configured)], orders, tasks)
  {
  }

  /** Deployment moves a site among the statuses other than PUBLISHING. */
  lemma StaysUnpublishing(sites: seq<Site>, orders: seq<PublishOrder>, tasks: seq<PublishTask>, x: int, status: SiteStatus)
    requires PublishInv(sites, orders, tasks)
    requires 0 <= x < |sites| ==> sites[x].status != Publishing
    requires status != Publishing
    ensures PublishInv(SetSiteStatus(sites, x, status), orders, tasks)
  {
    var sites' := SetSiteStatus(sites, x, status);
    forall y | 0 <= y < |sites'| && sites'[y].status == Publishing ensures HasPublishTask(tasks, y, Doing) {
      assert sites[y].status == Publishing;
    }
  }

  lemma NewOrder(sites: seq<Site>, orders: seq<PublishOrder>, tasks: seq<PublishTask>, site: nat, at: nat)
    requires PublishInv(sites, orders, tasks) && site < |sites|
    ensures PublishInv(sites, orders + [PublishOrder(sites[site].user, site, at, Pending, NONE)], tasks)
  {
    var orders' := orders + [PublishOrder(sites[site].user, site, at, Pending, NONE)];
    forall t | 0 <= t < |tasks| && tasks[t].state == Doing ensures Carries(orders', t) {
      var i :| 0 <= i < |orders| && orders[i].task == t;
      assert orders'[i].task == t;
    }
  }

  /** The publish tasks after linkOrGenerate made sure that the pair's newest one is PENDING. */
  function WithPending(tasks: seq<PublishTask>, site: nat, user: nat): (r: seq<PublishTask>) {
    var t := LatestTaskOf(tasks, site, user);
    if t != NONE && tasks[t].state == Pending then tasks else tasks + [PublishTask(user, site, Pending)]
  }

  lemma PendingTask(sites: seq<Site>, orders: seq<PublishOrder>, tasks: seq<PublishTask>, site: nat, user: nat)
    requires PublishInv(sites, orders, tasks)
    requires site < |sites| && sites[site].user == user
    ensures var tasks' := WithPending(tasks, site, user);
            var t := LatestTaskOf(tasks', site, user);
            0 <= t && tasks'[t] == PublishTask(user, site, Pending) && PendingTaskOf(tasks', site, user) == t &&
            PendingIsNewest(tasks') && PublishStatus(sites, tasks') && RunningCarries(orders, tasks')
  {
    var tasks' := WithPending(tasks, site, user);
    var latest := LatestTaskOf(tasks, site, user);
    if tasks' != tasks {
      assert tasks'[|tasks|] == PublishTask(user, site, Pending);
      forall i | 0 <= i < |tasks| && tasks[i].site == site ensures tasks[i].state != Pending {
        assert tasks[i].user == user;
      }
      forall x | 0 <= x < |sites| && sites[x].status == Publishing ensures HasPublishTask(tasks', x, Doing) {
        var u :| 0 <= u < |tasks| && tasks[u].site == x && tasks[u].state == Doing;
        assert tasks'[u] == tasks[u];
      }
    }
  }

  /** What linkOrGenerate does, and that it keeps the invariant. */
  lemma LinkedTask(db: Db, site: nat, user: nat)
    requires PublishInv(db.sites, db.publishOrders, db.publishTasks)
    requires site < |db.sites| && db.sites[site].user == user
    ensures var tasks' := WithPending(db.publishTasks, site, user);
            var t := LatestTaskOf(tasks', site, user);
            var orders' := UpdateOrders(db.publishOrders, UnpublishedOfSite(user, site), SetTask(t));
            SiteTasks.LinkOrGenerate(db, site, user) == db.(
              publishTasks := tasks', publishOrders := orders',
              posts := UpdatePosts(db.posts, UnpublishedOfOrders(OrdersOfTask(orders', t)), SetPublishTask(t)),
              postTasks := UpdatePostTasks(db.postTasks, OrdersOfTask(orders', t), t)) &&
            PublishInv(db.sites, orders', tasks')
  {
    var tasks' := WithPending(db.publishTasks, site, user);
    var t := LatestTaskOf(tasks', site, user);
    PendingTask(db.sites, db.publishOrders, db.publishTasks, site, user);
    Relink(db.sites, db.publishOrders, tasks', site, t);
    var latest := LatestTaskOf(db.publishTasks, site, user);
    if tasks' != db.publishTasks {
      assert tasks'[|db.publishTasks|].site == site;
      assert t == |db.publishTasks|;
    }
  }

  /** Moving the unpublished orders of a site to its PENDING task. */
  lemma Relink(sites: seq<Site>, orders: seq<PublishOrder>, tasks: seq<PublishTask>, site: nat, t: int)
    requires forall i :: 0 <= i < |orders| ==>
      orders[i].site < |sites| && sites[orders[i].site].user == orders[i].user && Link(orders[i].task, |tasks|)
    requires site < |sites| && 0 <= t < |tasks| && tasks[t].site == site && tasks[t].state == Pending
    requires PublishAgreement(orders, tasks) && RunningCarries(orders, tasks)
    ensures var orders' := UpdateOrders(orders, UnpublishedOfSite(sites[site].user, site), SetTask(t));
            (forall i :: 0 <= i < |orders'| ==>
              orders'[i].site < |sites| && sites[orders'[i].site].user == orders'[i].user &&
              Link(orders'[i].task, |tasks|)) &&
            PublishAgreement(orders', tasks) && RunningCarries(orders', tasks)
  {
    var orders' := UpdateOrders(orders, UnpublishedOfSite(sites[site].user, site), SetTask(t));
    forall i | 0 <= i < |orders'| ensures PublishOrderAgrees(tasks, orders'[i]) {
      assert PublishOrderAgrees(tasks, orders[i]);
    }
    forall u | 0 <= u < |tasks| && tasks[u].state == Doing ensures Carries(orders', u) {
      var i :| 0 <= i < |orders| && orders[i].task == u;
      assert PublishOrderAgrees(tasks, orders[i]);
      assert orders'[i].task == u;
    }
  }

  lemma Generate(db: Db, user: nat)
    requires PublishInv(db.sites, db.publishOrders, db.publishTasks)
    ensures var g := SiteOrders.GeneratePublishOrder(db, user);
            PublishInv(g.db.sites, g.db.publishOrders, g.db.publishTasks)
  {
    var site := DefaultSite(db.sites, user);
    if site != NONE {
      NewOrder(db.sites, db.publishOrders, db.publishTasks, site, db.clock);
    }
  }

  lemma MarkDoing(db: Db, t: int)
    requires PublishInv(db.sites, db.publishOrders, db.publishTasks)
    requires 0 <= t < |db.publishTasks| && db.publishTasks[t].state == Pending
    requires Settled(db.sites[db.publishTasks[t].site].status) && Carries(db.publishOrders, t)
    ensures var db' := SiteTasks.DoingPublish(db, t);
            PublishInv(db'.sites, db'.publishOrders, db'.publishTasks)
  {
    var db' := SiteTasks.DoingPublish(db, t);
    var site := db.publishTasks[t].site;
    OrdersFollow(db.publishOrders, db.publishTasks, t, Doing);
    assert db'.publishTasks[t].site == site && db'.publishTasks[t].state == Doing;
    assert HasPublishTask(db'.publishTasks, site, Doing);
    TasksStay(db.publishTasks, db'.publishTasks, t);
  }

  lemma MarkDone(db: Db, t: int, state: TaskState, status: SiteStatus)
    requires PublishInv(db.sites, db.publishOrders, db.publishTasks)
    requires 0 <= t < |db.publishTasks| && db.publishTasks[t].state == Doing
    requires state in {Finished, Failed} && Settled(status)
    ensures var db' := SiteTasks.MovePublish(db, t, state, status);
            PublishInv(db'.sites, db'.publishOrders, db'.publishTasks)
  {
    var db' := SiteTasks.MovePublish(db, t, state, status);
    OrdersFollow(db.publishOrders, db.publishTasks, t, state);
    TasksStay(db.publishTasks, db'.publishTasks, t);
  }

  /** The orders of a task that is moved to `state` move with it. */
  lemma OrdersFollow(orders: seq<PublishOrder>, tasks: seq<PublishTask>, t: int, state: TaskState)
    requires forall i :: 0 <= i < |orders| ==> Link(orders[i].task, |tasks|)
    requires PublishAgreement(orders, tasks) && RunningCarries(orders, tasks)
    requires 0 <= t < |tasks| && state in {Doing, Finished, Failed}
    requires state == Doing ==> Carries(orders, t)
    ensures PublishAgreement(UpdateOrders(orders, OfTask(t), SetState(state)), SetPublishTaskState(tasks, t, state))
    ensures RunningCarries(UpdateOrders(orders, OfTask(t), SetState(state)), SetPublishTaskState(tasks, t, state))
  {
    var orders' := UpdateOrders(orders, OfTask(t), SetState(state));
    var tasks' := SetPublishTaskState(tasks, t, state);
    forall i | 0 <= i < |orders'| ensures PublishOrderAgrees(tasks', orders'[i]) {
      assert PublishOrderAgrees(tasks, orders[i]);
    }
    forall u | 0 <= u < |tasks'| && tasks'[u].state == Doing ensures Carries(orders', u) {
      assert Carries(orders, u);
      var i :| 0 <= i < |orders| && orders[i].task == u;
      assert orders'[i].task == u;
    }
  }

  lemma TasksStay(tasks: seq<PublishTask>, tasks': seq<PublishTask>, t: int)
    requires |tasks| <= |tasks'| && 0 <= t < |tasks|
    requires forall u :: 0 <= u < |tasks| && u != t ==> tasks'[u] == tasks[u]
    ensures forall x: int :: x != tasks[t].site && HasPublishTask(tasks, x, Doing) ==> HasPublishTask(tasks', x, Doing)
  {
    forall x: int | x != tasks[t].site && HasPublishTask(tasks, x, Doing) ensures HasPublishTask(tasks', x, Doing) {
      var u :| 0 <= u < |tasks| && tasks[u].site == x && tasks[u].state == Doing;
      assert tasks'[u] == tasks[u];
    }
  }
}

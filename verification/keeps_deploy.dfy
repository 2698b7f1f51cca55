/** Every table operation keeps the invariant of the tables it touches. */
module DeployKeeps {
  import opened PipelineTypes
  import opened Tables
  import opened Invariants
  import SiteOrders
  import SiteTasks

  lemma NewSite(sites: seq<Site>, orders: seq<DeployOrder>, tasks: seq<DeployTask>, user: nat)
    requires DeployInv(sites, orders, tasks)
    ensures DeployInv(sites + [Site(user, Configured)], orders, tasks)
  {
  }

  /** A status change among the deployed statuses is invisible to deployment. */
  lemma StaysDeployed(sites: seq<Site>, orders: seq<DeployOrder>, tasks: seq<DeployTask>, x: int, status: SiteStatus)
    requires DeployInv(sites, orders, tasks)
    requires 0 <= x < |sites| && PastDeploy(sites[x].status) && PastDeploy(status)
    ensures DeployInv(SetSiteStatus(sites, x, status), orders, tasks)
  {
    hide DeployStatus, OneDeployOrder, DeployOrderAgrees;
    StatusStays(sites, tasks, x, status);
    OrdersStay(sites, orders, tasks, SetSiteStatus(sites, x, status));
  }

  lemma StatusStays(sites: seq<Site>, tasks: seq<DeployTask>, x: int, status: SiteStatus)
    requires forall t :: 0 <= t < |tasks| ==> tasks[t].site < |sites|
    requires DeployStatus(sites, tasks)
    requires 0 <= x < |sites| && PastDeploy(sites[x].status) && PastDeploy(status)
    ensures DeployStatus(SetSiteStatus(sites, x, status), tasks)
  {
    var sites' := SetSiteStatus(sites, x, status);
    forall y | 0 <= y < |sites'| && PastDeploy(sites'[y].status) ensures HasDeployTask(tasks, y, Finished) {
      assert PastDeploy(sites[y].status);
    }
    forall y | 0 <= y < |sites'| && sites'[y].status == Deploying ensures HasDeployTask(tasks, y, Doing) {
      assert sites[y].status == Deploying;
    }
  }

  /** Sites that are deployed in both do not matter to the orders. */
  lemma OrdersStay(sites: seq<Site>, orders: seq<DeployOrder>, tasks: seq<DeployTask>, sites': seq<Site>)
    requires DeployRowsOk(sites, orders, tasks) && OneDeployOrder(sites, orders) && DeployAgreement(sites, orders, tasks)
    requires |sites'| == |sites|
    requires forall y :: 0 <= y < |sites| ==>
      sites'[y] == sites[y] ||
      (sites'[y].user == sites[y].user && PastDeploy(sites[y].status) && PastDeploy(sites'[y].status))
    ensures DeployRowsOk(sites', orders, tasks) && OneDeployOrder(sites', orders) && DeployAgreement(sites', orders, tasks)
  {
    OrdersGrow(sites, orders, orders);
    hide HasDeployOrder;
    forall i | 0 <= i < |orders| ensures DeployOrderAgrees(sites', tasks, orders[i]) {
      assert DeployOrderAgrees(sites, tasks, orders[i]);
    }
  }

  lemma SaveOrder(db: Db, user: nat, site: int)
    requires DeployInv(db.sites, db.deployOrders, db.deployTasks)
    ensures var db' := SiteOrders.SaveDeployOrder(db, user, site);
            DeployInv(db'.sites, db'.deployOrders, db'.deployTasks)
  {
    var db' := SiteOrders.SaveDeployOrder(db, user, site);
    if 0 <= site < |db.sites| && db.sites[site].user == user {
      var d := DeployOrderOf(db.deployOrders, site, user);
      if d == NONE {
        assert !HasDeployOrder(db.deployOrders, site);
        NewOrder(db.sites, db.deployOrders, db.deployTasks, site, db.clock);
      } else {
        ReviveKeeps(db.sites, db.deployOrders, db.deployTasks, d, site);
      }
    }
  }

  lemma NewOrder(sites: seq<Site>, orders: seq<DeployOrder>, tasks: seq<DeployTask>, site: nat, at: nat)
    requires DeployInv(sites, orders, tasks) && site < |sites| && !HasDeployOrder(orders, site)
    ensures DeployInv(sites, orders + [DeployOrder(sites[site].user, site, at, Pending, NONE)], tasks)
  {
    var orders' := orders + [DeployOrder(sites[site].user, site, at, Pending, NONE)];
    OrdersGrow(sites, orders, orders');
    assert sites[site].status == Configured;
    hide DeployStatus, HasDeployOrder;
    assert DeployAgreement(sites, orders', tasks) by {
      forall i | 0 <= i < |orders'| ensures DeployOrderAgrees(sites, tasks, orders'[i]) {
        assert i < |orders| ==> DeployOrderAgrees(sites, tasks, orders[i]);
      }
    }
  }

  lemma OrdersGrow(sites: seq<Site>, orders: seq<DeployOrder>, orders': seq<DeployOrder>)
    requires OneDeployOrder(sites, orders)
    requires |orders| <= |orders'| && forall i :: 0 <= i < |orders| ==> orders'[i].site == orders[i].site
    ensures forall x :: 0 <= x < |sites| && sites[x].status != Configured ==> HasDeployOrder(orders', x)
  {
    forall x | 0 <= x < |sites| && sites[x].status != Configured ensures HasDeployOrder(orders', x) {
      var i :| 0 <= i < |orders| && orders[i].site == x;
      assert orders'[i].site == x;
    }
  }

  /** The failed deploy order d of the failed site becomes PENDING again, the site CONFIGURED. */
  lemma ReviveKeeps(sites: seq<Site>, orders: seq<DeployOrder>, tasks: seq<DeployTask>, d: int, site: int)
    requires DeployInv(sites, orders, tasks)
    requires 0 <= d < |orders| && 0 <= site < |sites| && orders[d].site == site
    ensures sites[site].status == DeployFailed ==>
      DeployInv(SetSiteStatus(sites, site, Configured), orders[d := orders[d].(state := Pending)], tasks)
  {
    if sites[site].status == DeployFailed {
      OrdersGrow(sites, orders, orders[d := orders[d].(state := Pending)]);
      assert DeployOrderAgrees(sites, tasks, orders[d]);
      StatusMoves(sites, tasks, site, Configured);
    }
  }

  /** A site without DOING or FINISHED deploy task may move among the statuses that need none. */
  lemma StatusMoves(sites: seq<Site>, tasks: seq<DeployTask>, site: int, status: SiteStatus)
    requires forall t :: 0 <= t < |tasks| ==> tasks[t].site < |sites|
    requires DeployStatus(sites, tasks)
    requires 0 <= site < |sites| && sites[site].status in {Configured, DeployFailed}
    requires status in {Configured, DeployFailed}
    ensures DeployStatus(SetSiteStatus(sites, site, status), tasks)
  {
    var sites' := SetSiteStatus(sites, site, status);
    forall x | 0 <= x < |sites'| && sites'[x].status == Deploying ensures HasDeployTask(tasks, x, Doing) {
      assert sites[x].status == Deploying;
    }
    forall x | 0 <= x < |sites'| && PastDeploy(sites'[x].status) ensures HasDeployTask(tasks, x, Finished) {
      assert PastDeploy(sites[x].status);
    }
  }

  /** Tasks and orders around a task t of `site` that starts or ends. */
  lemma StatusFollows(sites: seq<Site>, tasks: seq<DeployTask>, tasks': seq<DeployTask>, t: int, status: SiteStatus)
    requires forall u :: 0 <= u < |tasks| ==> tasks[u].site < |sites|
    requires DeployStatus(sites, tasks)
    requires 0 <= t <= |tasks| && |tasks'| == (if t < |tasks| then |tasks| else |tasks| + 1) && tasks'[t].site < |sites|
    requires forall u :: 0 <= u < |tasks| && u != t ==> tasks'[u] == tasks[u]
    requires t < |tasks| ==> tasks[t].state == Doing && tasks'[t].site == tasks[t].site
    requires t == |tasks| ==> sites[tasks'[t].site].status == Configured
    requires match tasks'[t].state
             case Doing => status == Deploying && t == |tasks|
             case Finished => status == Deployed && t < |tasks|
             case Failed => status == DeployFailed && t < |tasks|
             case _ => false
    ensures DeployStatus(SetSiteStatus(sites, tasks'[t].site, status), tasks')
  {
    var site := tasks'[t].site;
    var sites' := SetSiteStatus(sites, site, status);
    TasksMove(tasks, tasks', t);
    assert HasDeployTask(tasks', site, tasks'[t].state);
    forall x | 0 <= x < |sites'| && sites'[x].status == Deploying ensures HasDeployTask(tasks', x, Doing) {
      assert x != site ==> HasDeployTask(tasks, x, Doing);
    }
    forall x | 0 <= x < |sites'| && PastDeploy(sites'[x].status) ensures HasDeployTask(tasks', x, Finished) {
      assert x != site ==> HasDeployTask(tasks, x, Finished);
    }
  }

  lemma Start(db: Db, d: int)
    requires DeployInv(db.sites, db.deployOrders, db.deployTasks)
    requires 0 <= d < |db.deployOrders| && db.sites[db.deployOrders[d].site].status == Configured
    ensures var o := db.deployOrders[d];
            var db' := SiteTasks.StartDeploy(db, d, o.site, o.user);
            DeployInv(db'.sites, db'.deployOrders, db'.deployTasks)
  {
    hide DeployStatus, OneDeployOrder, DeployOrderAgrees;
    var o := db.deployOrders[d];
    var db' := SiteTasks.StartDeploy(db, d, o.site, o.user);
    StatusFollows(db.sites, db.deployTasks, db'.deployTasks, |db.deployTasks|, Deploying);
    StartedOrders(db.sites, db.deployOrders, db.deployTasks, d, db'.sites, db'.deployOrders, db'.deployTasks);
  }

  /** Order d of a configured site is put on a new running task. */
  lemma StartedOrders(sites: seq<Site>, orders: seq<DeployOrder>, tasks: seq<DeployTask>, d: int,
                      sites': seq<Site>, orders': seq<DeployOrder>, tasks': seq<DeployTask>)
    requires DeployInv(sites, orders, tasks)
    requires 0 <= d < |orders| && sites[orders[d].site].status == Configured
    requires sites' == SetSiteStatus(sites, orders[d].site, Deploying)
    requires orders' == orders[d := orders[d].(task := |tasks|, state := Doing)]
    requires tasks' == tasks + [DeployTask(orders[d].user, orders[d].site, Doing)]
    ensures DeployRowsOk(sites', orders', tasks') && OneDeployOrder(sites', orders')
    ensures DeployAgreement(sites', orders', tasks')
  {
    OrdersGrow(sites, orders, orders');
    assert orders'[d].site == orders[d].site;
    assert HasDeployOrder(orders', orders[d].site);
    hide DeployStatus, HasDeployOrder;
    forall i | 0 <= i < |orders'| ensures DeployOrderAgrees(sites', tasks', orders'[i]) {
      assert DeployOrderAgrees(sites, tasks, orders[i]);
    }
  }

  /** Only task t changes or appears: the tasks of the other sites are still there. */
  lemma TasksMove(tasks: seq<DeployTask>, tasks': seq<DeployTask>, t: int)
    requires |tasks| <= |tasks'|
    requires forall u :: 0 <= u < |tasks| && u != t ==> tasks'[u] == tasks[u]
    ensures forall x: int, st :: HasDeployTask(tasks, x, st) && (0 <= t < |tasks| ==> tasks[t].site != x) ==>
              HasDeployTask(tasks', x, st)
  {
    forall x: int, st | HasDeployTask(tasks, x, st) && (0 <= t < |tasks| ==> tasks[t].site != x)
      ensures HasDeployTask(tasks', x, st)
    {
      var u :| 0 <= u < |tasks| && tasks[u].site == x && tasks[u].state == st;
      assert tasks'[u] == tasks[u];
    }
  }

  lemma Close(db: Db, t: int, state: TaskState, status: SiteStatus)
    requires DeployInv(db.sites, db.deployOrders, db.deployTasks)
    requires 0 <= t < |db.deployTasks| && db.deployTasks[t].state == Doing
    requires (state == Finished && status == Deployed) || (state == Failed && status == DeployFailed)
    ensures var db' := SiteTasks.CloseDeploy(db, t, state, status);
            DeployInv(db'.sites, db'.deployOrders, db'.deployTasks)
  {
    hide DeployStatus, OneDeployOrder, DeployOrderAgrees;
    var db' := SiteTasks.CloseDeploy(db, t, state, status);
    StatusFollows(db.sites, db.deployTasks, db'.deployTasks, t, status);
    ClosedOrders(db.sites, db.deployOrders, db.deployTasks, t, state, status);
  }

  /** The order of a task that ends goes with it. */
  lemma ClosedOrders(sites: seq<Site>, orders: seq<DeployOrder>, tasks: seq<DeployTask>, t: int, state: TaskState,
                     status: SiteStatus)
    requires DeployInv(sites, orders, tasks) && 0 <= t < |tasks| && tasks[t].state == Doing
    requires (state == Finished && status == Deployed) || (state == Failed && status == DeployFailed)
    ensures var sites' := SetSiteStatus(sites, tasks[t].site, status);
            var orders' := UpdateDeployOrders(orders, t, state);
            var tasks' := SetDeployTaskState(tasks, t, state);
            DeployRowsOk(sites', orders', tasks') && OneDeployOrder(sites', orders') &&
            DeployAgreement(sites', orders', tasks')
  {
    var sites' := SetSiteStatus(sites, tasks[t].site, status);
    var orders' := UpdateDeployOrders(orders, t, state);
    var tasks' := SetDeployTaskState(tasks, t, state);
    hide DeployStatus, OneDeployOrder, DeployOrderAgrees;
    ClosingHasOrder(sites, orders, tasks, t);
    ClosedOne(sites, orders, tasks[t].site, status, orders');
    ClosedAgreement(sites, orders, tasks, t, state, status);
  }

  /** A site that has an order may leave CONFIGURED. */
  lemma ClosedOne(sites: seq<Site>, orders: seq<DeployOrder>, x: nat, status: SiteStatus, orders': seq<DeployOrder>)
    requires OneDeployOrder(sites, orders) && x < |sites| && HasDeployOrder(orders, x)
    requires |orders'| == |orders| && forall i :: 0 <= i < |orders| ==> orders'[i].site == orders[i].site
    ensures OneDeployOrder(SetSiteStatus(sites, x, status), orders')
  {
    OrdersGrow(sites, orders, orders');
    var i :| 0 <= i < |orders| && orders[i].site == x;
    assert orders'[i].site == x;
    assert HasDeployOrder(orders', x);
    hide HasDeployOrder;
  }

  lemma ClosedAgreement(sites: seq<Site>, orders: seq<DeployOrder>, tasks: seq<DeployTask>, t: int, state: TaskState,
                        status: SiteStatus)
    requires DeployRowsOk(sites, orders, tasks) && DeployAgreement(sites, orders, tasks)
    requires 0 <= t < |tasks| && tasks[t].state == Doing
    requires (state == Finished && status == Deployed) || (state == Failed && status == DeployFailed)
    ensures var sites' := SetSiteStatus(sites, tasks[t].site, status);
            var orders' := UpdateDeployOrders(orders, t, state);
            var tasks' := SetDeployTaskState(tasks, t, state);
            DeployRowsOk(sites', orders', tasks') && DeployAgreement(sites', orders', tasks')
  {
    hide DeployOrderAgrees;
    var sites' := SetSiteStatus(sites, tasks[t].site, status);
    var orders' := UpdateDeployOrders(orders, t, state);
    var tasks' := SetDeployTaskState(tasks, t, state);
    forall i | 0 <= i < |orders'| ensures DeployOrderAgrees(sites', tasks', orders'[i]) {
      ClosedOrder(sites, tasks, t, state, status, orders[i]);
    }
  }

  lemma ClosingHasOrder(sites: seq<Site>, orders: seq<DeployOrder>, tasks: seq<DeployTask>, t: int)
    requires DeployInv(sites, orders, tasks) && 0 <= t < |tasks| && tasks[t].state == Doing
    ensures HasDeployOrder(orders, tasks[t].site) && sites[tasks[t].site].status == Deploying
  {
    hide DeployAgreement;
  }

  lemma ClosedOrder(sites: seq<Site>, tasks: seq<DeployTask>, t: int, state: TaskState, status: SiteStatus, o: DeployOrder)
    requires 0 <= t < |tasks| && tasks[t].state == Doing && tasks[t].site < |sites|
    requires (state == Finished && status == Deployed) || (state == Failed && status == DeployFailed)
    requires o.site < |sites| && Link(o.task, |tasks|) && DeployOrderAgrees(sites, tasks, o)
    requires o.site == tasks[t].site ==> o.task == t
    ensures DeployOrderAgrees(SetSiteStatus(sites, tasks[t].site, status), SetDeployTaskState(tasks, t, state),
                              if o.task == t then o.(state := state) else o)
  {
  }
}

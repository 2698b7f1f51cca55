/** The invariant of the pipeline: what holds between the tables, the queue and the dispatcher. */
module Invariants {
  import opened PipelineTypes
  import opened Tables
  import opened Pipeline

  predicate Link(t: int, bound: nat) { t == NONE || 0 <= t < bound }

  // ---- deployment ----

  predicate DeployRowsOk(sites: seq<Site>, orders: seq<DeployOrder>, tasks: seq<DeployTask>) {
    (forall i :: 0 <= i < |orders| ==>
      orders[i].site < |sites| && sites[orders[i].site].user == orders[i].user && Link(orders[i].task, |tasks|)) &&
    (forall t :: 0 <= t < |tasks| ==>
      tasks[t].site < |sites| && sites[tasks[t].site].user == tasks[t].user)
  }

  ghost predicate HasDeployOrder(orders: seq<DeployOrder>, site: int) {
    exists i :: 0 <= i < |orders| && orders[i].site == site
  }

  /** At most one deploy order a site, and one as soon as the site leaves CONFIGURED. */
  ghost predicate OneDeployOrder(sites: seq<Site>, orders: seq<DeployOrder>) {
    (forall i, j :: 0 <= i < j < |orders| ==> orders[i].site != orders[j].site) &&
    (forall x :: 0 <= x < |sites| && sites[x].status != Configured ==> HasDeployOrder(orders, x))
  }

  predicate DeployOrderAgrees(sites: seq<Site>, tasks: seq<DeployTask>, o: DeployOrder)
    requires o.site < |sites| && Link(o.task, |tasks|)
  {
    (o.task != NONE ==> tasks[o.task].site == o.site) &&
    match o.state
    case Pending => sites[o.site].status == Configured && (o.task != NONE ==> tasks[o.task].state == Failed)
    case Failed => sites[o.site].status == DeployFailed && o.task != NONE && tasks[o.task].state == Failed
    case Doing => o.task != NONE && tasks[o.task].state == Doing
    case Finished => o.task != NONE && tasks[o.task].state == Finished
    case Nothing => false
  }

  predicate DeployAgreement(sites: seq<Site>, orders: seq<DeployOrder>, tasks: seq<DeployTask>)
    requires DeployRowsOk(sites, orders, tasks)
  {
    (forall i :: 0 <= i < |orders| ==> DeployOrderAgrees(sites, tasks, orders[i])) &&
    (forall t, i :: 0 <= t < |tasks| && 0 <= i < |orders| ==>
      tasks[t].state == Doing && orders[i].site == tasks[t].site ==> orders[i].task == t)
  }

  /** The site's status tells which deploy tasks it has. */
  ghost predicate DeployStatus(sites: seq<Site>, tasks: seq<DeployTask>)
    requires forall t :: 0 <= t < |tasks| ==> tasks[t].site < |sites|
  {
    (forall t :: 0 <= t < |tasks| ==> tasks[t].state in {Doing, Finished, Failed}) &&
    (forall t :: 0 <= t < |tasks| && tasks[t].state == Doing ==> sites[tasks[t].site].status == Deploying) &&
    (forall t :: 0 <= t < |tasks| && tasks[t].state == Finished ==> PastDeploy(sites[tasks[t].site].status)) &&
    (forall t, u :: 0 <= t < u < |tasks| && tasks[t].state != Failed && tasks[u].state != Failed ==>
      tasks[t].site != tasks[u].site) &&
    (forall x :: 0 <= x < |sites| && sites[x].status == Deploying ==> HasDeployTask(tasks, x, Doing)) &&
    (forall x :: 0 <= x < |sites| && PastDeploy(sites[x].status) ==> HasDeployTask(tasks, x, Finished))
  }

  ghost predicate HasDeployTask(tasks: seq<DeployTask>, site: int, state: TaskState) {
    exists t :: 0 <= t < |tasks| && tasks[t].site == site && tasks[t].state == state
  }

  ghost predicate DeployInv(sites: seq<Site>, orders: seq<DeployOrder>, tasks: seq<DeployTask>) {
    DeployRowsOk(sites, orders, tasks) && OneDeployOrder(sites, orders) &&
    DeployAgreement(sites, orders, tasks) && DeployStatus(sites, tasks)
  }

  // ---- publishing ----

  predicate PublishRowsOk(sites: seq<Site>, orders: seq<PublishOrder>, tasks: seq<PublishTask>) {
    (forall i :: 0 <= i < |orders| ==>
      orders[i].site < |sites| && sites[orders[i].site].user == orders[i].user && Link(orders[i].task, |tasks|)) &&
    (forall t :: 0 <= t < |tasks| ==>
      tasks[t].site < |sites| && sites[tasks[t].site].user == tasks[t].user && tasks[t].state != Nothing)
  }

  /** An order linked to a PENDING task is PENDING or FAILED, otherwise it has the task's state. */
  predicate PublishOrderAgrees(tasks: seq<PublishTask>, o: PublishOrder)
    requires Link(o.task, |tasks|)
  {
    if o.task == NONE then o.state == Pending
    else
      tasks[o.task].site == o.site &&
      if tasks[o.task].state == Pending then Unpublished(o.state) else o.state == tasks[o.task].state
  }

  predicate PublishAgreement(orders: seq<PublishOrder>, tasks: seq<PublishTask>)
    requires forall i :: 0 <= i < |orders| ==> Link(orders[i].task, |tasks|)
  {
    forall i :: 0 <= i < |orders| ==> PublishOrderAgrees(tasks, orders[i])
  }

  /** Only the newest task of a site may be PENDING. */
  predicate PendingIsNewest(tasks: seq<PublishTask>) {
    forall t, u :: 0 <= t < u < |tasks| && tasks[t].site == tasks[u].site ==> tasks[t].state != Pending
  }

  ghost predicate HasPublishTask(tasks: seq<PublishTask>, site: int, state: TaskState) {
    exists t :: 0 <= t < |tasks| && tasks[t].site == site && tasks[t].state == state
  }

  /** A site is PUBLISHING exactly when one of its publish tasks runs, and never two do. */
  ghost predicate PublishStatus(sites: seq<Site>, tasks: seq<PublishTask>)
    requires forall t :: 0 <= t < |tasks| ==> tasks[t].site < |sites|
  {
    (forall t :: 0 <= t < |tasks| && tasks[t].state == Doing ==> sites[tasks[t].site].status == Publishing) &&
    (forall t, u :: 0 <= t < u < |tasks| && tasks[t].state == Doing && tasks[u].state == Doing ==>
      tasks[t].site != tasks[u].site) &&
    (forall x :: 0 <= x < |sites| && sites[x].status == Publishing ==> HasPublishTask(tasks, x, Doing))
  }

  ghost predicate Carries(orders: seq<PublishOrder>, t: int) {
    exists i :: 0 <= i < |orders| && orders[i].task == t
  }

  /** A running publish task carries an order. */
  ghost predicate RunningCarries(orders: seq<PublishOrder>, tasks: seq<PublishTask>) {
    forall t :: 0 <= t < |tasks| && tasks[t].state == Doing ==> Carries(orders, t)
  }

  ghost predicate PublishInv(sites: seq<Site>, orders: seq<PublishOrder>, tasks: seq<PublishTask>) {
    PublishRowsOk(sites, orders, tasks) && PublishAgreement(orders, tasks) && PendingIsNewest(tasks) &&
    PublishStatus(sites, tasks) && RunningCarries(orders, tasks)
  }

  // ---- posts ----

  predicate PostOk(orders: seq<PublishOrder>, tasks: seq<PublishTask>, postTasks: seq<PostTask>, p: PostOrder) {
    Link(p.postTask, |postTasks|) && Link(p.publishOrder, |orders|) && Link(p.publishTask, |tasks|) &&
    (p.postTask != NONE ==> postTasks[p.postTask].user == p.user) &&
    (p.submit == Doing ==> p.postTask != NONE && postTasks[p.postTask].state == Doing) &&
    (p.submit == Finished && p.postTask != NONE ==> postTasks[p.postTask].state == Finished) &&
    (p.publish == Doing ==> p.publishTask != NONE && tasks[p.publishTask].state == Doing) &&
    (p.publish == Finished && p.publishTask != NONE ==> tasks[p.publishTask].state == Finished)
  }

  predicate PostInv(orders: seq<PublishOrder>, tasks: seq<PublishTask>, posts: seq<PostOrder>, postTasks: seq<PostTask>) {
    forall i :: 0 <= i < |posts| ==> PostOk(orders, tasks, postTasks, posts[i])
  }

  /** The user of a post task has a site to publish to. */
  predicate PostTasksOk(sites: seq<Site>, postTasks: seq<PostTask>) {
    forall t :: 0 <= t < |postTasks| ==> DefaultSite(sites, postTasks[t].user) != NONE
  }

  // ---- mutual exclusion ----

  /** A user's running posts share one post task, the running publish orders one publish task, and
      the two kinds never run together. */
  predicate Exclusion(posts: seq<PostOrder>, orders: seq<PublishOrder>) {
    (forall i, j :: 0 <= i < |posts| && 0 <= j < |posts| && posts[i].submit == Doing && posts[j].submit == Doing ==>
      posts[i].user == posts[j].user ==> posts[i].postTask == posts[j].postTask) &&
    (forall i, j :: 0 <= i < |orders| && 0 <= j < |orders| && orders[i].state == Doing && orders[j].state == Doing ==>
      orders[i].user == orders[j].user ==> orders[i].task == orders[j].task) &&
    (forall i, j :: 0 <= i < |posts| && 0 <= j < |orders| && posts[i].submit == Doing && orders[j].state == Doing ==>
      posts[i].user != orders[j].user)
  }

  // ---- events ----

  ghost predicate EventsOk(db: Db) {
    (forall e :: e in db.links ==> e.site < |db.sites| && db.sites[e.site].user == e.user) &&
    (forall e :: e in db.retries ==>
      Link(e.postTask, |db.postTasks|) &&
      (e.postTask != NONE ==> db.postTasks[e.postTask].user == e.user)) &&
    (forall r :: r in db.repoints ==>
      r.order < |db.publishOrders| && Link(r.postTask, |db.postTasks|) &&
      (r.postTask != NONE ==> db.postTasks[r.postTask].user == db.publishOrders[r.order].user))
  }

  // ---- jobs ----

  predicate TaskDoing(db: Db, j: Job) {
    match j.kind
    case DeployJob => 0 <= j.task < |db.deployTasks| && db.deployTasks[j.task].state == Doing
    case PostJob => 0 <= j.task < |db.postTasks| && db.postTasks[j.task].state == Doing
    case PublishJob => 0 <= j.task < |db.publishTasks| && db.publishTasks[j.task].state == Doing
  }

  /** How many times the task is in flight: in the queue, between completion and finishPostTask, or
      held by the dispatcher between marking and enqueueing. */
  function Lives(s: State, j: Job): nat {
    s.waiting[j] + s.active[j] +
    (if j.kind == PostJob && j.task in s.closing then 1 else 0) +
    (if s.phase == Marked(j) then 1 else 0)
  }

  /** A task is DOING exactly when it has one life. */
  ghost predicate LivesOk(s: State) {
    forall j: Job :: Lives(s, j) == if TaskDoing(s.db, j) then 1 else 0
  }

  /** While a completed post task still has running posts, the order kept for them stays PENDING. */
  ghost predicate ClosingOk(s: State) {
    (forall t :: t in s.closing ==>
      0 <= t < |s.db.postTasks| && 0 <= s.closing[t] < |s.db.publishOrders| &&
      s.db.publishOrders[s.closing[t]].user == s.db.postTasks[t].user) &&
    (forall i :: 0 <= i < |s.db.posts| && s.db.posts[i].submit == Doing && s.db.posts[i].postTask in s.closing ==>
      0 <= s.closing[s.db.posts[i].postTask] < |s.db.publishOrders| &&
      s.db.publishOrders[s.closing[s.db.posts[i].postTask]].state == Pending) &&
    (forall t :: t in s.deployed ==> 0 <= t < |s.db.deployTasks| && s.db.deployTasks[t].state == Finished)
  }

  // ---- the dispatcher ----

  predicate DeployPickOk(db: Db, d: int) {
    0 <= d < |db.deployOrders| && db.deployOrders[d].state == Pending
  }

  ghost predicate PublishPickOk(db: Db, o: int) {
    0 <= o < |db.publishOrders| && db.publishOrders[o].state == Pending &&
    db.publishOrders[o].site < |db.sites| && Settled(db.sites[db.publishOrders[o].site].status) &&
    Quiet(db, db.publishOrders[o].user)
  }

  ghost predicate PostPickOk(db: Db, p: int) {
    0 <= p < |db.posts| && Quiet(db, db.posts[p].user)
  }

  /** What was read at selection still holds when the dispatcher acts on it. */
  ghost predicate PhaseOk(s: State) {
    match s.phase
    case DeployPicked(d) => d == NONE || DeployPickOk(s.db, d)
    case PublishPicked(d, o) => (d == NONE || DeployPickOk(s.db, d)) && (o == NONE || PublishPickOk(s.db, o))
    case Chosen(Deploy(d)) => DeployPickOk(s.db, d)
    case Chosen(Publish(o)) => PublishPickOk(s.db, o)
    case Chosen(Submit(p)) => PostPickOk(s.db, p)
    case Chosen(NoOrder) => false
    case Swept(t) => 0 <= t < |s.db.postTasks| && s.db.postTasks[t].state == Pending &&
                     Quiet(s.db, s.db.postTasks[t].user)
    case Linked(o) => PublishPickOk(s.db, o) && 0 <= s.db.publishOrders[o].task < |s.db.publishTasks| &&
                      s.db.publishTasks[s.db.publishOrders[o].task].state == Pending
    case _ => true
  }

  // ---- WIP ----

  /** The waiting count read by the dispatcher can only have fallen since. */
  predicate WipOk(s: State) {
    |s.active| <= s.concurrency &&
    |s.waiting| + (if s.phase.Idle? || s.phase.ActiveRead? then 0 else 1) <= s.wipLimit
  }

  // ---- all of it ----

  ghost predicate DbInv(db: Db) {
    DeployInv(db.sites, db.deployOrders, db.deployTasks) &&
    PublishInv(db.sites, db.publishOrders, db.publishTasks) &&
    PostInv(db.publishOrders, db.publishTasks, db.posts, db.postTasks) &&
    PostTasksOk(db.sites, db.postTasks) &&
    Exclusion(db.posts, db.publishOrders) &&
    EventsOk(db)
  }

  ghost predicate Inv(s: State) {
    DbInv(s.db) && LivesOk(s) && ClosingOk(s) && PhaseOk(s) && WipOk(s)
  }
}

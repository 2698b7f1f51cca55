/** Queries and batched updates over the tables: what one SELECT ... LIMIT 1 or one UPDATE ... WHERE does. */
module Tables {
  import opened PipelineTypes

  /** The last row satisfying p, or NONE. */
  function LastIndex<T>(rows: seq<T>, p: T -> bool): (r: int)
    ensures NONE <= r < |rows|
    ensures r != NONE ==> p(rows[r])
    ensures forall j :: r < j < |rows| ==> !p(rows[j])
  {
    if |rows| == 0 then NONE
    else if p(rows[|rows| - 1]) then |rows| - 1
    else LastIndex(rows[..|rows| - 1], p)
  }

  function DefaultSite(sites: seq<Site>, user: nat): (r: int)
    ensures NONE <= r < |sites|
    ensures r != NONE ==> sites[r].user == user
    ensures forall j :: r < j < |sites| ==> sites[j].user != user
  {
    LastIndex(sites, (x: Site) => x.user == user)
  }

  function DeployOrderOf(orders: seq<DeployOrder>, site: nat, user: nat): (r: int)
    ensures NONE <= r < |orders|
    ensures r != NONE ==> orders[r].site == site && orders[r].user == user
    ensures forall j :: r < j < |orders| ==> !(orders[j].site == site && orders[j].user == user)
  {
    LastIndex(orders, (x: DeployOrder) => x.site == site && x.user == user)
  }

  /** The newest PENDING publish order of the pair. */
  function PendingOrderOf(orders: seq<PublishOrder>, site: nat, user: nat): (r: int)
    ensures NONE <= r < |orders|
    ensures r != NONE ==> orders[r].site == site && orders[r].user == user && orders[r].state == Pending
    ensures forall j :: r < j < |orders| ==>
      !(orders[j].site == site && orders[j].user == user && orders[j].state == Pending)
  {
    LastIndex(orders, (x: PublishOrder) => x.site == site && x.user == user && x.state == Pending)
  }

  /** The newest publish task of the pair, whatever its state. */
  function LatestTaskOf(tasks: seq<PublishTask>, site: nat, user: nat): (r: int)
    ensures NONE <= r < |tasks|
    ensures r != NONE ==> tasks[r].site == site && tasks[r].user == user
    ensures forall j :: r < j < |tasks| ==> !(tasks[j].site == site && tasks[j].user == user)
  {
    LastIndex(tasks, (x: PublishTask) => x.site == site && x.user == user)
  }

  /** The newest PENDING publish task of the pair. */
  function PendingTaskOf(tasks: seq<PublishTask>, site: nat, user: nat): (r: int)
    ensures NONE <= r < |tasks|
    ensures r != NONE ==> tasks[r].site == site && tasks[r].user == user && tasks[r].state == Pending
    ensures forall j :: r < j < |tasks| ==>
      !(tasks[j].site == site && tasks[j].user == user && tasks[j].state == Pending)
  {
    LastIndex(tasks, (x: PublishTask) => x.site == site && x.user == user && x.state == Pending)
  }

  // ---- post orders ----

  /** The WHERE clauses used on post orders. */
  datatype PostWhere =
    | PendingOfUser(user: nat)
    | OfPostTask(postTask: int)
    | DoingOfPostTask(postTask: int)
    | UnpublishedOfOrders(orders: set<int>)
    | OfPublishTask(publishTask: int)

  /** The SET clauses used on post orders. */
  datatype PostSet =
    | SetPostTask(postTask: int)
    | SetSubmit(submit: TaskState)
    | SetSubmitAndOrder(submit: TaskState, order: int)
    | SetSubmitAndPublish(submit: TaskState, publish: TaskState)
    | SetPublishOrder(order: int)
    | SetPublishTask(publishTask: int)
    | SetPublish(publish: TaskState)

  predicate PostMatches(p: PostOrder, w: PostWhere) {
    match w
    case PendingOfUser(u) => p.user == u && p.submit == Pending
    case OfPostTask(t) => p.postTask == t
    case DoingOfPostTask(t) => p.postTask == t && p.submit == Doing
    case UnpublishedOfOrders(os) => p.publishOrder in os && Unpublished(p.publish)
    case OfPublishTask(t) => p.publishTask == t
  }

  function PostChanged(p: PostOrder, c: PostSet): PostOrder {
    match c
    case SetPostTask(t) => p.(postTask := t)
    case SetSubmit(st) => p.(submit := st)
    case SetSubmitAndOrder(st, o) => p.(submit := st, publishOrder := o)
    case SetSubmitAndPublish(st, pub) => p.(submit := st, publish := pub)
    case SetPublishOrder(o) => p.(publishOrder := o)
    case SetPublishTask(t) => p.(publishTask := t)
    case SetPublish(st) => p.(publish := st)
  }

  function UpdatePosts(rows: seq<PostOrder>, w: PostWhere, c: PostSet): (r: seq<PostOrder>)
    ensures |r| == |rows|
    ensures forall i :: 0 <= i < |rows| ==>
      r[i] == if PostMatches(rows[i], w) then PostChanged(rows[i], c) else rows[i]
  {
    seq(|rows|, i requires 0 <= i < |rows| =>
      if PostMatches(rows[i], w) then PostChanged(rows[i], c) else rows[i])
  }

  // ---- publish orders ----

  datatype OrderWhere =
    | UnpublishedOfSite(user: nat, site: nat)
    | OfTask(task: int)

  datatype OrderSet =
    | SetTask(task: int)
    | SetState(state: TaskState)

  predicate OrderMatches(o: PublishOrder, w: OrderWhere) {
    match w
    case UnpublishedOfSite(u, x) => Unpublished(o.state) && o.user == u && o.site == x
    case OfTask(t) => o.task == t
  }

  function OrderChanged(o: PublishOrder, c: OrderSet): PublishOrder {
    match c
    case SetTask(t) => o.(task := t)
    case SetState(st) => o.(state := st)
  }

  function UpdateOrders(rows: seq<PublishOrder>, w: OrderWhere, c: OrderSet): (r: seq<PublishOrder>)
    ensures |r| == |rows|
    ensures forall i :: 0 <= i < |rows| ==>
      r[i] == if OrderMatches(rows[i], w) then OrderChanged(rows[i], c) else rows[i]
  {
    seq(|rows|, i requires 0 <= i < |rows| =>
      if OrderMatches(rows[i], w) then OrderChanged(rows[i], c) else rows[i])
  }

  /** The ids of the publish orders that carry the task. */
  function OrdersOfTask(rows: seq<PublishOrder>, task: int): set<int> {
    set i | 0 <= i < |rows| && rows[i].task == task
  }

  // ---- post tasks and deploy orders ----

  /** UPDATE post_task SET publishSiteTaskId WHERE publishSiteOrderId IN (...) */
  function UpdatePostTasks(rows: seq<PostTask>, orders: set<int>, publishTask: int): (r: seq<PostTask>)
    ensures |r| == |rows|
    ensures forall i :: 0 <= i < |rows| ==>
      r[i] == if rows[i].publishOrder in orders then rows[i].(publishTask := publishTask) else rows[i]
  {
    seq(|rows|, i requires 0 <= i < |rows| =>
      if rows[i].publishOrder in orders then rows[i].(publishTask := publishTask) else rows[i])
  }

  /** UPDATE deploy_site_order SET state WHERE deploySiteTaskId = task */
  function UpdateDeployOrders(rows: seq<DeployOrder>, task: int, state: TaskState): (r: seq<DeployOrder>)
    ensures |r| == |rows|
    ensures forall i :: 0 <= i < |rows| ==>
      r[i] == if rows[i].task == task then rows[i].(state := state) else rows[i]
  {
    seq(|rows|, i requires 0 <= i < |rows| =>
      if rows[i].task == task then rows[i].(state := state) else rows[i])
  }

  // ---- updates by primary key ----

  function SetSiteStatus(rows: seq<Site>, i: int, status: SiteStatus): (r: seq<Site>)
    ensures |r| == |rows|
  {
    if 0 <= i < |rows| then rows[i := rows[i].(status := status)] else rows
  }

  function SetPostTaskState(rows: seq<PostTask>, i: int, state: TaskState): (r: seq<PostTask>)
    ensures |r| == |rows|
  {
    if 0 <= i < |rows| then rows[i := rows[i].(state := state)] else rows
  }

  function SetDeployTaskState(rows: seq<DeployTask>, i: int, state: TaskState): (r: seq<DeployTask>)
    ensures |r| == |rows|
  {
    if 0 <= i < |rows| then rows[i := rows[i].(state := state)] else rows
  }

  function SetPublishTaskState(rows: seq<PublishTask>, i: int, state: TaskState): (r: seq<PublishTask>)
    ensures |r| == |rows|
  {
    if 0 <= i < |rows| then rows[i := rows[i].(state := state)] else rows
  }
}

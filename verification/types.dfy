/** The rows of the publishing pipeline's tables and the events that travel between its services.

    A row is identified by its position in its table. `NONE` stands for a link that is not set
    (an empty task id, or publish order id 0, in the database). */
module PipelineTypes {

  /** PipelineOrderTaskCommonState; `Nothing` is the empty string. */
  datatype TaskState = Nothing | Pending | Doing | Finished | Failed

  datatype SiteStatus =
    | Configured | Deploying | Deployed | DeployFailed
    | Publishing | Published | PublishFailed

  const NONE: int := -1

  datatype Site = Site(user: nat, status: SiteStatus)

  datatype DeployOrder = DeployOrder(user: nat, site: nat, createdAt: nat, state: TaskState, task: int)

  datatype DeployTask = DeployTask(user: nat, site: nat, state: TaskState)

  datatype PublishOrder = PublishOrder(user: nat, site: nat, createdAt: nat, state: TaskState, task: int)

  datatype PublishTask = PublishTask(user: nat, site: nat, state: TaskState)

  /** `storage` says that a certificate storage type is set, `certified` that a certificate id is. */
  datatype PostOrder = PostOrder(
    user: nat, createdAt: nat,
    submit: TaskState, publish: TaskState, certificate: TaskState,
    storage: bool, certified: bool,
    postTask: int, publishOrder: int, publishTask: int)

  datatype PostTask = PostTask(user: nat, state: TaskState, publishOrder: int, publishTask: int)

  /** LINK_OR_GENERATE_PUBLISH_SITE_TASK_EVENT */
  datatype LinkEvent = LinkEvent(site: nat, user: nat)

  /** GENERATE_PUBLISH_SITE_ORDER_EVENT, emitted by the retry of a failed publish. */
  datatype RetryEvent = RetryEvent(user: nat, postTask: int)

  /** The second half of the handler of a RetryEvent: point the post task's rows at the order. */
  datatype Repoint = Repoint(postTask: int, order: nat)

  /** The tables, the bags of events not handled yet, and the clock that stamps new rows. */
  datatype Db = Db(
    clock: nat,
    sites: seq<Site>,
    deployOrders: seq<DeployOrder>, deployTasks: seq<DeployTask>,
    publishOrders: seq<PublishOrder>, publishTasks: seq<PublishTask>,
    posts: seq<PostOrder>, postTasks: seq<PostTask>,
    links: multiset<LinkEvent>, retries: multiset<RetryEvent>, repoints: multiset<Repoint>)

  const EmptyDb := Db(0, [], [], [], [], [], [], [], multiset{}, multiset{}, multiset{})

  /** The site has been deployed at some point. */
  predicate PastDeploy(status: SiteStatus) {
    status in {Deployed, Publishing, Published, PublishFailed}
  }

  /** The statuses in which posts may be submitted and the site may be published. */
  predicate Settled(status: SiteStatus) {
    status in {Deployed, Published, PublishFailed}
  }

  predicate Unpublished(state: TaskState) {
    state == Pending || state == Failed
  }
}

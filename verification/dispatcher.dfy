/** The pipeline as a state machine: one action per atomic step of the dispatcher, of the job
    queue, of an event handler or of a user request. */
module Pipeline {
  import opened PipelineTypes
  import opened Tables
  import PostOrders
  import PostTasks
  import SiteOrders
  import SiteTasks

  datatype Kind = DeployJob | PostJob | PublishJob

  /** A job of the worker queue: the task it runs. */
  datatype Job = Job(kind: Kind, task: int)

  datatype Choice = NoOrder | Deploy(d: int) | Publish(o: int) | Submit(p: int)

  /** Where the serial dispatcher is inside dispatchNextTask. */
  datatype Phase =
    | Idle
    | ActiveRead(active: nat)
    | Permitted
    | DeployPicked(d: int)
    | PublishPicked(d: int, o: int)
    | Chosen(choice: Choice)
    | Swept(postTask: int)
    | Linked(order: int)
    | Marked(job: Job)

  /** `closing` holds the post tasks whose job is complete and whose publish order is generated,
      `deployed` the deploy tasks that still owe their first publish order. */
  datatype State = State(
    db: Db, wipLimit: nat, concurrency: nat,
    waiting: multiset<Job>, active: multiset<Job>,
    closing: map<int, int>, deployed: set<int>,
    phase: Phase)

  function Start(wipLimit: nat, concurrency: nat): State {
    State(EmptyDb, wipLimit, concurrency, multiset{}, multiset{}, map[], {}, Idle)
  }

  // ---- selection ----

  predicate DeployEligible(db: Db, d: int) {
    0 <= d < |db.deployOrders| && db.deployOrders[d].state == Pending &&
    db.deployOrders[d].site < |db.sites| &&
    db.sites[db.deployOrders[d].site].status in {Configured, DeployFailed}
  }

  /** No post of the user is being submitted or published and no publish order of the user runs. */
  ghost predicate Quiet(db: Db, user: nat) {
    (forall i :: 0 <= i < |db.posts| && db.posts[i].user == user ==>
      db.posts[i].submit != Doing && db.posts[i].publish != Doing) &&
    (forall i :: 0 <= i < |db.publishOrders| && db.publishOrders[i].user == user ==>
      db.publishOrders[i].state != Doing)
  }

  ghost predicate PublishEligible(db: Db, o: int) {
    0 <= o < |db.publishOrders| && db.publishOrders[o].state == Pending &&
    db.publishOrders[o].site < |db.sites| &&
    Settled(db.sites[db.publishOrders[o].site].status) &&
    Quiet(db, db.publishOrders[o].user)
  }

  ghost predicate PostEligible(db: Db, p: int) {
    0 <= p < |db.posts| && db.posts[p].submit == Pending &&
    (!db.posts[p].storage || db.posts[p].certified) &&
    Quiet(db, db.posts[p].user)
  }

  ghost predicate FirstDeploy(db: Db, d: int) {
    if d == NONE then forall j :: !DeployEligible(db, j)
    else DeployEligible(db, d) &&
         forall j :: DeployEligible(db, j) ==> db.deployOrders[d].createdAt <= db.deployOrders[j].createdAt
  }

  ghost predicate FirstPublish(db: Db, o: int) {
    if o == NONE then forall j :: !PublishEligible(db, j)
    else PublishEligible(db, o) &&
         forall j :: PublishEligible(db, j) ==> db.publishOrders[o].createdAt <= db.publishOrders[j].createdAt
  }

  ghost predicate FirstPost(db: Db, p: int) {
    if p == NONE then forall j :: !PostEligible(db, j)
    else PostEligible(db, p) &&
         forall j :: PostEligible(db, j) ==> db.posts[p].createdAt <= db.posts[j].createdAt
  }

  /** The earlier of two creation times, either of which may be missing. */
  function Earlier(a: int, b: int): int {
    if a == NONE then b else if b == NONE || a <= b then a else b
  }

  function OldestAt(db: Db, d: int, o: int, p: int): int
    requires NONE <= d < |db.deployOrders| && NONE <= o < |db.publishOrders| && NONE <= p < |db.posts|
  {
    Earlier(if d == NONE then NONE else db.deployOrders[d].createdAt,
            Earlier(if o == NONE then NONE else db.publishOrders[o].createdAt,
                    if p == NONE then NONE else db.posts[p].createdAt))
  }

  /** dispatchOldestOrder: the candidate with the least creation time; a tie goes to the deploy
      order, then to the publish order. A post of user 0 is never dispatched. */
  function Oldest(db: Db, d: int, o: int, p: int): Choice
    requires NONE <= d < |db.deployOrders| && NONE <= o < |db.publishOrders| && NONE <= p < |db.posts|
  {
    var least := OldestAt(db, d, o, p);
    if d != NONE && db.deployOrders[d].createdAt == least then Deploy(d)
    else if o != NONE && db.publishOrders[o].createdAt == least then Publish(o)
    else if p != NONE && db.posts[p].user != 0 && db.posts[p].createdAt == least then Submit(p)
    else NoOrder
  }

  // ---- the dispatcher ----

  function ReadActive(s: State): State { s.(phase := ActiveRead(|s.active|)) }

  function ReadWaiting(s: State): State
    requires s.phase.ActiveRead?
  {
    s.(phase := if s.phase.active + |s.waiting| < s.wipLimit then Permitted else Idle)
  }

  function PickDeploy(s: State, d: int): State { s.(phase := DeployPicked(d)) }

  function PickPublish(s: State, o: int): State
    requires s.phase.DeployPicked?
  {
    s.(phase := PublishPicked(s.phase.d, o))
  }

  function PickPost(s: State, p: int): State
    requires s.phase.PublishPicked?
    requires NONE <= s.phase.d < |s.db.deployOrders| && NONE <= s.phase.o < |s.db.publishOrders|
    requires NONE <= p < |s.db.posts|
  {
    var choice := Oldest(s.db, s.phase.d, s.phase.o, p);
    s.(phase := if choice == NoOrder then Idle else Chosen(choice))
  }

  /** dispatchDeploySiteTask up to the marking; an invalid site status ends the dispatch. */
  function StartDeploy(s: State): State
    requires s.phase.Chosen? && s.phase.choice.Deploy?
    requires 0 <= s.phase.choice.d < |s.db.deployOrders|
  {
    var order := s.db.deployOrders[s.phase.choice.d];
    var d := DeployOrderOf(s.db.deployOrders, order.site, order.user);
    if order.site >= |s.db.sites| || d == NONE then s.(phase := Idle)
    else
      var db := SiteTasks.ReviveDeploy(s.db, d, order.site);
      if db.sites[order.site].status != Configured then s.(db := db, phase := Idle)
      else s.(db := SiteTasks.StartDeploy(db, d, order.site, order.user),
              phase := Marked(Job(DeployJob, |db.deployTasks|)))
  }

  /** dispatchCreatePostsTask: status check and generateUserPostTaskForPendingPosts. */
  function Sweep(s: State): State
    requires s.phase.Chosen? && s.phase.choice.Submit?
    requires 0 <= s.phase.choice.p < |s.db.posts|
  {
    var user := s.db.posts[s.phase.choice.p].user;
    var site := DefaultSite(s.db.sites, user);
    if site == NONE || !Settled(s.db.sites[site].status) then s.(phase := Idle)
    else s.(db := PostTasks.Generate(s.db, user), phase := Swept(|s.db.postTasks|))
  }

  function MarkPosts(s: State): State
    requires s.phase.Swept?
  {
    s.(db := PostTasks.DoingTask(s.db, s.phase.postTask), phase := Marked(Job(PostJob, s.phase.postTask)))
  }

  /** dispatchPublishSiteTask: status check and linkOrGeneratePublishSiteTask. */
  function LinkForPublish(s: State): State
    requires s.phase.Chosen? && s.phase.choice.Publish?
    requires 0 <= s.phase.choice.o < |s.db.publishOrders|
  {
    var order := s.db.publishOrders[s.phase.choice.o];
    if order.site >= |s.db.sites| || !Settled(s.db.sites[order.site].status) then s.(phase := Idle)
    else s.(db := SiteTasks.LinkOrGenerate(s.db, order.site, order.user), phase := Linked(s.phase.choice.o))
  }

  function MarkPublish(s: State): State
    requires s.phase.Linked? && 0 <= s.phase.order < |s.db.publishOrders|
  {
    var order := s.db.publishOrders[s.phase.order];
    var t := PendingTaskOf(s.db.publishTasks, order.site, order.user);
    if t == NONE then s.(phase := Idle)
    else s.(db := SiteTasks.DoingPublish(s.db, t), phase := Marked(Job(PublishJob, t)))
  }

  function Enqueue(s: State): State
    requires s.phase.Marked?
  {
    s.(waiting := s.waiting + multiset{s.phase.job}, phase := Idle)
  }

  /** The configuration for the worker could not be built: the task fails at once. */
  function Abandon(s: State): State
    requires s.phase.Marked?
  {
    s.(db := FailTask(s.db, s.phase.job), phase := Idle)
  }

  function FailTask(db: Db, j: Job): Db {
    match j.kind
    case DeployJob => SiteTasks.FailDeploy(db, j.task)
    case PostJob => PostTasks.FailTask(db, j.task)
    case PublishJob => SiteTasks.FailPublish(db, j.task)
  }

  // ---- the job queue ----

  function StartJob(s: State, j: Job): State {
    s.(waiting := s.waiting - multiset{j}, active := s.active + multiset{j})
  }

  function CompleteDeploy(s: State, t: int): State {
    s.(db := SiteTasks.FinishDeploy(s.db, t), active := s.active - multiset{Job(DeployJob, t)},
       deployed := s.deployed + {t})
  }

  /** The second half of finishTask for a deploy task. */
  function OrderFirstPublish(s: State, t: int): State
    requires 0 <= t < |s.db.deployTasks|
  {
    s.(db := SiteOrders.GeneratePublishOrder(s.db, s.db.deployTasks[t].user).db, deployed := s.deployed - {t})
  }

  /** finishTask for a post task up to generatePublishSiteOrder. */
  function CompletePosts(s: State, t: int): State
    requires 0 <= t < |s.db.postTasks|
  {
    var g := SiteOrders.GeneratePublishOrder(s.db, s.db.postTasks[t].user);
    s.(db := g.db, active := s.active - multiset{Job(PostJob, t)},
       closing := if g.order == NONE then s.closing else s.closing[t := g.order])
  }

  /** finishPostTask with the order generated before. */
  function FinishPosts(s: State, t: int): State
    requires t in s.closing
  {
    s.(db := PostTasks.FinishTask(s.db, t, s.closing[t]), closing := s.closing - {t})
  }

  function CompletePublish(s: State, t: int): State {
    s.(db := SiteTasks.FinishPublish(s.db, t), active := s.active - multiset{Job(PublishJob, t)})
  }

  function FailJob(s: State, j: Job): State {
    s.(db := FailTask(s.db, j), active := s.active - multiset{j})
  }

  // ---- actions ----

  /** What users, certificate uploads and event handlers do. */
  datatype OutsideAction =
    | ATick
    | ACreateSite(user: nat)
    | ASavePost(user: nat)
    | ARequestDeploy(user: nat, site: int)
    | ARequestPublish(user: nat)
    | ARetry(user: nat, p: int)
    | ABeginCertificate(p: int)
    | AStoreCertificate(p: int)
    | ALoseCertificate(p: int)
    | ADeliverLink(link: LinkEvent)
    | ABeginRetry(retry: RetryEvent)
    | AEndRetry(repoint: Repoint)

  /** The steps of dispatchNextTask. */
  datatype DispatcherAction =
    | AReadActive
    | AReadWaiting
    | APickDeploy(d: int)
    | APickPublish(o: int)
    | APickPost(p: int)
    | AStartDeploy
    | ASweep
    | AMarkPosts
    | ALinkForPublish
    | AMarkPublish
    | AEnqueue
    | AAbandon

  /** The life cycle of jobs. */
  datatype WorkerAction =
    | AStartJob(job: Job)
    | AReport(t: int, p: int)
    | ACompleteDeploy(t: int)
    | AOrderFirstPublish(t: int)
    | ACompletePosts(t: int)
    | AFinishPosts(t: int)
    | ACompletePublish(t: int)
    | AFailJob(job: Job)

  datatype Action =
    | Outside(outside: OutsideAction)
    | Dispatcher(step: DispatcherAction)
    | Worker(work: WorkerAction)

  predicate OutsideEnabled(s: State, a: OutsideAction) {
    match a
    case ATick => true
    case ACreateSite(_) => true
    case ASavePost(_) => true
    case ARequestDeploy(_, _) => true
    case ARequestPublish(_) => true
    case ARetry(_, _) => true
    case ABeginCertificate(p) => 0 <= p < |s.db.posts|
    case AStoreCertificate(p) => 0 <= p < |s.db.posts| && s.db.posts[p].storage
    case ALoseCertificate(p) => 0 <= p < |s.db.posts| && s.db.posts[p].storage
    case ADeliverLink(e) => e in s.db.links
    case ABeginRetry(e) => e in s.db.retries
    case AEndRetry(r) => r in s.db.repoints
  }

  function OutsideNext(s: State, a: OutsideAction): State
    requires OutsideEnabled(s, a)
  {
    match a
    case ATick => s.(db := s.db.(clock := s.db.clock + 1))
    case ACreateSite(user) => s.(db := s.db.(sites := s.db.sites + [Site(user, Configured)]))
    case ASavePost(user) => s.(db := PostOrders.SavePost(s.db, user, Pending, Pending))
    case ARequestDeploy(user, site) => s.(db := SiteOrders.SaveDeployOrder(s.db, user, site))
    case ARequestPublish(user) => s.(db := SiteOrders.GeneratePublishOrder(s.db, user).db)
    case ARetry(user, p) =>
      (match PostOrders.RetryPost(s.db, user, p)
       case Retried(db) => s.(db := db)
       case Refused(_) => s)
    case ABeginCertificate(p) => s.(db := PostOrders.BeginCertificate(s.db, p))
    case AStoreCertificate(p) => s.(db := PostOrders.StoreCertificate(s.db, p))
    case ALoseCertificate(p) => s.(db := PostOrders.LoseCertificate(s.db, p))
    case ADeliverLink(e) =>
      s.(db := SiteTasks.LinkOrGenerate(s.db.(links := s.db.links - multiset{e}), e.site, e.user))
    case ABeginRetry(e) => s.(db := SiteOrders.BeginRetry(s.db, e))
    case AEndRetry(r) => s.(db := SiteOrders.EndRetry(s.db, r))
  }

  ghost predicate DispatcherEnabled(s: State, a: DispatcherAction) {
    match a
    case AReadActive => s.phase == Idle
    case AReadWaiting => s.phase.ActiveRead?
    case APickDeploy(d) => s.phase == Permitted && FirstDeploy(s.db, d)
    case APickPublish(o) => s.phase.DeployPicked? && FirstPublish(s.db, o)
    case APickPost(p) => s.phase.PublishPicked? && FirstPost(s.db, p) &&
      NONE <= s.phase.d < |s.db.deployOrders| && NONE <= s.phase.o < |s.db.publishOrders|
    case AStartDeploy => s.phase.Chosen? && s.phase.choice.Deploy? &&
      0 <= s.phase.choice.d < |s.db.deployOrders|
    case ASweep => s.phase.Chosen? && s.phase.choice.Submit? && 0 <= s.phase.choice.p < |s.db.posts|
    case AMarkPosts => s.phase.Swept?
    case ALinkForPublish => s.phase.Chosen? && s.phase.choice.Publish? &&
      0 <= s.phase.choice.o < |s.db.publishOrders|
    case AMarkPublish => s.phase.Linked? && 0 <= s.phase.order < |s.db.publishOrders|
    case AEnqueue => s.phase.Marked?
    case AAbandon => s.phase.Marked?
  }

  ghost function DispatcherNext(s: State, a: DispatcherAction): State
    requires DispatcherEnabled(s, a)
  {
    match a
    case AReadActive => ReadActive(s)
    case AReadWaiting => ReadWaiting(s)
    case APickDeploy(d) => PickDeploy(s, d)
    case APickPublish(o) => PickPublish(s, o)
    case APickPost(p) => PickPost(s, p)
    case AStartDeploy => StartDeploy(s)
    case ASweep => Sweep(s)
    case AMarkPosts => MarkPosts(s)
    case ALinkForPublish => LinkForPublish(s)
    case AMarkPublish => MarkPublish(s)
    case AEnqueue => Enqueue(s)
    case AAbandon => Abandon(s)
  }

  /** A report comes from a live post job and may name any post. */
  predicate WorkerEnabled(s: State, a: WorkerAction) {
    match a
    case AStartJob(j) => j in s.waiting && |s.active| < s.concurrency
    case AReport(t, p) => Job(PostJob, t) in s.active && 0 <= p < |s.db.posts|
    case ACompleteDeploy(t) => Job(DeployJob, t) in s.active
    case AOrderFirstPublish(t) => t in s.deployed && 0 <= t < |s.db.deployTasks|
    case ACompletePosts(t) => Job(PostJob, t) in s.active && 0 <= t < |s.db.postTasks|
    case AFinishPosts(t) => t in s.closing
    case ACompletePublish(t) => Job(PublishJob, t) in s.active
    case AFailJob(j) => j in s.active
  }

  function WorkerNext(s: State, a: WorkerAction): State
    requires WorkerEnabled(s, a)
  {
    match a
    case AStartJob(j) => StartJob(s, j)
    case AReport(_, p) => s.(db := PostOrders.FailSubmit(s.db, p))
    case ACompleteDeploy(t) => CompleteDeploy(s, t)
    case AOrderFirstPublish(t) => OrderFirstPublish(s, t)
    case ACompletePosts(t) => CompletePosts(s, t)
    case AFinishPosts(t) => FinishPosts(s, t)
    case ACompletePublish(t) => CompletePublish(s, t)
    case AFailJob(j) => FailJob(s, j)
  }

  ghost predicate Enabled(s: State, a: Action) {
    match a
    case Outside(o) => OutsideEnabled(s, o)
    case Dispatcher(d) => DispatcherEnabled(s, d)
    case Worker(w) => WorkerEnabled(s, w)
  }

  ghost function Next(s: State, a: Action): State
    requires Enabled(s, a)
  {
    match a
    case Outside(o) => OutsideNext(s, o)
    case Dispatcher(d) => DispatcherNext(s, d)
    case Worker(w) => WorkerNext(s, w)
  }

  /** Every action of the list is enabled when its turn comes. */
  ghost predicate IsRun(s: State, actions: seq<Action>)
    decreases |actions|
  {
    actions == [] || (Enabled(s, actions[0]) && IsRun(Next(s, actions[0]), actions[1..]))
  }

  ghost function After(s: State, actions: seq<Action>): State
    requires IsRun(s, actions)
    decreases |actions|
  {
    if actions == [] then s else After(Next(s, actions[0]), actions[1..])
  }
}

/** Runs from the empty tables into the states where a property fails: an overtaken submission, a late
    certificate, a lost retry, a retry without effect, and a dispatcher that turns on the spot. */
module Scenarios {
  import opened PipelineTypes
  import opened Tables
  import opened Pipeline
  import opened Invariants
  import opened Runs
  import OldestFirst
  import Overtaking
  import Ownership
  import Hanging
  import Stuck
  import PostOrders
  import PostTasks
  import SiteOrders
  import SiteTasks

  /** Some run leads from s to t. */
  ghost predicate LeadsTo(s: State, t: State) {
    exists actions :: IsRun(s, actions) && After(s, actions) == t
  }

  lemma Here(s: State)
    ensures LeadsTo(s, s)
  {
    NoStep(s);
  }

  lemma Onward(s: State, t: State, a: Action, u: State)
    requires LeadsTo(s, t) && Enabled(t, a) && Next(t, a) == u
    ensures LeadsTo(s, u)
  {
    hide Enabled, Next, IsRun, After;
    var actions :| IsRun(s, actions) && After(s, actions) == t;
    RunSnoc(s, actions, a);
  }

  // ---- dispatches ----

  lemma ReadingStep(s: State, t: State)
    requires LeadsTo(s, t) && t.phase == Idle && |t.active| + |t.waiting| < t.wipLimit
    ensures LeadsTo(s, t.(phase := Permitted))
  {
    hide LeadsTo;
    Onward(s, t, Dispatcher(AReadActive), t.(phase := ActiveRead(|t.active|)));
    Onward(s, t.(phase := ActiveRead(|t.active|)), Dispatcher(AReadWaiting), t.(phase := Permitted));
  }

  /** The dispatcher reads the counts, selects three candidates and chooses one. */
  lemma Selecting(s: State, t: State, d: int, o: int, p: int, c: Choice)
    requires LeadsTo(s, t) && t.phase == Idle && |t.active| + |t.waiting| < t.wipLimit
    requires FirstDeploy(t.db, d) && FirstPublish(t.db, o) && FirstPost(t.db, p)
    requires NONE <= d < |t.db.deployOrders| && NONE <= o < |t.db.publishOrders| && NONE <= p < |t.db.posts|
    requires Oldest(t.db, d, o, p) == c != NoOrder
    ensures LeadsTo(s, t.(phase := Chosen(c)))
  {
    hide LeadsTo, FirstDeploy, FirstPublish, FirstPost, Oldest;
    ReadingStep(s, t);
    Onward(s, t.(phase := Permitted), Dispatcher(APickDeploy(d)), t.(phase := DeployPicked(d)));
    Onward(s, t.(phase := DeployPicked(d)), Dispatcher(APickPublish(o)), t.(phase := PublishPicked(d, o)));
    Onward(s, t.(phase := PublishPicked(d, o)), Dispatcher(APickPost(p)), t.(phase := Chosen(c)));
  }

  /** The marked task is enqueued and a worker picks it up. */
  lemma Running(s: State, t: State, j: Job)
    requires LeadsTo(s, t) && t.phase == Marked(j) && t.waiting == t.active == multiset{} && 0 < t.concurrency
    ensures LeadsTo(s, t.(active := multiset{j}, phase := Idle))
  {
    hide LeadsTo;
    var queued := t.(waiting := multiset{j}, phase := Idle);
    Onward(s, t, Dispatcher(AEnqueue), queued);
    Onward(s, queued, Worker(AStartJob(j)), t.(active := multiset{j}, phase := Idle));
  }

  lemma PostsRun(s: State, t: State, p: int, db: Db)
    requires LeadsTo(s, t) && t.phase == Chosen(Submit(p)) && 0 <= p < |t.db.posts|
    requires t.waiting == t.active == multiset{} && 0 < t.concurrency
    requires var x := DefaultSite(t.db.sites, t.db.posts[p].user); x != NONE && Settled(t.db.sites[x].status)
    requires db == PostTasks.DoingTask(PostTasks.Generate(t.db, t.db.posts[p].user), |t.db.postTasks|)
    ensures LeadsTo(s, t.(db := db, active := multiset{Job(PostJob, |t.db.postTasks|)}, phase := Idle))
  {
    var u := |t.db.postTasks|;
    var swept := t.(db := PostTasks.Generate(t.db, t.db.posts[p].user), phase := Swept(u));
    var marked := t.(db := db, phase := Marked(Job(PostJob, u)));
    hide LeadsTo, PostTasks.Generate, PostTasks.DoingTask;
    Onward(s, t, Dispatcher(ASweep), swept);
    Onward(s, swept, Dispatcher(AMarkPosts), marked);
    Running(s, marked, Job(PostJob, u));
  }

  lemma PublishLinked(s: State, t: State, o: int, db: Db)
    requires LeadsTo(s, t) && t.phase == Chosen(Publish(o)) && 0 <= o < |t.db.publishOrders|
    requires t.db.publishOrders[o].site < |t.db.sites| && Settled(t.db.sites[t.db.publishOrders[o].site].status)
    requires db == SiteTasks.LinkOrGenerate(t.db, t.db.publishOrders[o].site, t.db.publishOrders[o].user)
    ensures LeadsTo(s, t.(db := db, phase := Linked(o)))
  {
    hide LeadsTo, SiteTasks.LinkOrGenerate;
    Onward(s, t, Dispatcher(ALinkForPublish), t.(db := db, phase := Linked(o)));
  }

  lemma PublishRuns(s: State, t: State, o: int, u: int, db: Db)
    requires LeadsTo(s, t) && t.phase == Linked(o) && 0 <= o < |t.db.publishOrders|
    requires t.waiting == t.active == multiset{} && 0 < t.concurrency
    requires PendingTaskOf(t.db.publishTasks, t.db.publishOrders[o].site, t.db.publishOrders[o].user) == u != NONE
    requires db == SiteTasks.DoingPublish(t.db, u)
    ensures LeadsTo(s, t.(db := db, active := multiset{Job(PublishJob, u)}, phase := Idle))
  {
    hide LeadsTo, SiteTasks.DoingPublish;
    var marked := t.(db := db, phase := Marked(Job(PublishJob, u)));
    Onward(s, t, Dispatcher(AMarkPublish), marked);
    Running(s, marked, Job(PublishJob, u));
  }

  // ---- requests and events ----

  lemma RetryAsked(s: State, t: State, user: nat, p: int, db: Db)
    requires LeadsTo(s, t) && PostOrders.RetryPost(t.db, user, p) == PostOrders.Retried(db)
    ensures LeadsTo(s, t.(db := db))
  {
    hide LeadsTo, PostOrders.RetryPost;
    Onward(s, t, Outside(ARetry(user, p)), t.(db := db));
  }

  lemma RetryHandled(s: State, t: State, e: RetryEvent, db: Db)
    requires LeadsTo(s, t) && e in t.db.retries && SiteOrders.BeginRetry(t.db, e) == db
    ensures LeadsTo(s, t.(db := db))
  {
    hide LeadsTo, SiteOrders.BeginRetry;
    Onward(s, t, Outside(ABeginRetry(e)), t.(db := db));
  }

  lemma RetryPoints(s: State, t: State, r: Repoint, db: Db)
    requires LeadsTo(s, t) && r in t.db.repoints && SiteOrders.EndRetry(t.db, r) == db
    ensures LeadsTo(s, t.(db := db))
  {
    hide LeadsTo, SiteOrders.EndRetry;
    Onward(s, t, Outside(AEndRetry(r)), t.(db := db));
  }

  // ---- one site, one user ----

  const LINK: LinkEvent := LinkEvent(0, 1)

  const DEFAULT_POST: PostOrder := PostOrder(1, 0, Finished, Finished, Nothing, false, false, NONE, NONE, NONE)

  /** A post of user 1. */
  function Plain(submit: TaskState, publish: TaskState, postTask: int, order: int, task: int): PostOrder {
    PostOrder(1, 0, submit, publish, Nothing, false, false, postTask, order, task)
  }

  /** A post of user 1 whose certificate is still being uploaded. */
  function Certifying(submit: TaskState, publish: TaskState, postTask: int, order: int, task: int): PostOrder {
    PostOrder(1, 0, submit, publish, Doing, true, false, postTask, order, task)
  }

  function PubOrder(state: TaskState, task: int): PublishOrder { PublishOrder(1, 0, 0, state, task) }

  function PubTask(state: TaskState): PublishTask { PublishTask(1, 0, state) }

  /** The tables once the site of user 1 is deployed. */
  function Rows(status: SiteStatus, posts: seq<PostOrder>, postTasks: seq<PostTask>,
                orders: seq<PublishOrder>, tasks: seq<PublishTask>): Db {
    EmptyDb.(
      sites := [Site(1, status)],
      deployOrders := [DeployOrder(1, 0, 0, Finished, 0)], deployTasks := [DeployTask(1, 0, Finished)],
      posts := posts, postTasks := postTasks, publishOrders := orders, publishTasks := tasks)
  }

  /** Nothing is queued; the deploy task still owes its first publish order. */
  function At(db: Db): State { Start(1, 1).(db := db, deployed := {0}) }

  function During(db: Db, j: Job): State { At(db).(active := multiset{j}) }

  lemma LinkDelivered(s: State, t: State, e: LinkEvent, db: Db)
    requires LeadsTo(s, t) && e in t.db.links
    requires SiteTasks.LinkOrGenerate(t.db.(links := t.db.links - multiset{e}), e.site, e.user) == db
    ensures LeadsTo(s, t.(db := db))
  {
    hide LeadsTo, SiteTasks.LinkOrGenerate;
    Onward(s, t, Outside(ADeliverLink(e)), t.(db := db));
  }

  lemma PublishEnds(s: State, a: Db, u: int, b: Db)
    requires LeadsTo(s, During(a, Job(PublishJob, u)))
    ensures SiteTasks.FinishPublish(a, u) == b ==> LeadsTo(s, At(b))
    ensures SiteTasks.FailPublish(a, u) == b ==> LeadsTo(s, At(b))
  {
    var j := Job(PublishJob, u);
    hide LeadsTo, SiteTasks.MovePublish;
    if SiteTasks.FinishPublish(a, u) == b {
      Onward(s, During(a, j), Worker(ACompletePublish(u)), At(b));
    } else if SiteTasks.FailPublish(a, u) == b {
      Onward(s, During(a, j), Worker(AFailJob(j)), At(b));
    }
  }

  // ---- two posts are submitted ----

  const REQUESTED: Db := EmptyDb.(
    sites := [Site(1, Configured)], posts := [DEFAULT_POST], deployOrders := [DeployOrder(1, 0, 0, Pending, NONE)])

  const DEPLOYING: Db := REQUESTED.(
    sites := [Site(1, Deploying)], deployOrders := [DeployOrder(1, 0, 0, Doing, 0)],
    deployTasks := [DeployTask(1, 0, Doing)])

  const DEPLOYED: Db := Rows(Deployed, [DEFAULT_POST], [], [], [])

  lemma SiteRequested()
    ensures LeadsTo(Start(1, 1), Start(1, 1).(db := REQUESTED))
  {
    var s := Start(1, 1);
    var created := s.(db := EmptyDb.(sites := [Site(1, Configured)]));
    Here(s);
    assert Next(s, Outside(ACreateSite(1))) == created;
    assert DeployOrderOf(created.db.deployOrders, 0, 1) == NONE;
    assert Next(created, Outside(ARequestDeploy(1, 0))) == s.(db := REQUESTED);
    hide LeadsTo;
    Onward(s, s, Outside(ACreateSite(1)), created);
    Onward(s, created, Outside(ARequestDeploy(1, 0)), s.(db := REQUESTED));
  }

  lemma SiteDeployed()
    ensures LeadsTo(Start(1, 1), At(DEPLOYED))
  {
    var s := Start(1, 1);
    var t := s.(db := REQUESTED);
    var j := Job(DeployJob, 0);
    SiteRequested();
    assert DeployOrderOf(REQUESTED.deployOrders, 0, 1) == 0;
    assert FirstDeploy(REQUESTED, 0) by {
      assert forall i :: DeployEligible(REQUESTED, i) ==> REQUESTED.deployOrders[i].createdAt == 0;
    }
    var marked := t.(db := DEPLOYING, phase := Marked(j));
    assert Next(t.(phase := Chosen(Deploy(0))), Dispatcher(AStartDeploy)) == marked;
    var running := t.(db := DEPLOYING, active := multiset{j});
    assert Next(running, Worker(ACompleteDeploy(0))) == At(DEPLOYED);
    hide LeadsTo, Next;
    Selecting(s, t, 0, NONE, NONE, Deploy(0));
    Onward(s, t.(phase := Chosen(Deploy(0))), Dispatcher(AStartDeploy), marked);
    Running(s, marked, j);
    Onward(s, running, Worker(ACompleteDeploy(0)), At(DEPLOYED));
  }

  const WRITTEN: Db := Rows(Deployed,
    [DEFAULT_POST, Plain(Pending, Pending, NONE, NONE, NONE), Certifying(Pending, Pending, NONE, NONE, NONE)], [], [], [])

  lemma PostsWritten()
    ensures LeadsTo(Start(1, 1), At(WRITTEN))
  {
    var s := Start(1, 1);
    var post := Plain(Pending, Pending, NONE, NONE, NONE);
    var one := At(Rows(Deployed, [DEFAULT_POST, post], [], [], []));
    var two := At(Rows(Deployed, [DEFAULT_POST, post, post], [], [], []));
    SiteDeployed();
    assert Next(At(DEPLOYED), Outside(ASavePost(1))) == one;
    assert Next(one, Outside(ASavePost(1))) == two;
    assert Next(two, Outside(ABeginCertificate(2))) == At(WRITTEN);
    hide LeadsTo, Next;
    Onward(s, At(DEPLOYED), Outside(ASavePost(1)), one);
    Onward(s, one, Outside(ASavePost(1)), two);
    Onward(s, two, Outside(ABeginCertificate(2)), At(WRITTEN));
  }

  const SUBMITTING: Db := Rows(Deployed,
    [DEFAULT_POST, Plain(Doing, Pending, 0, NONE, NONE), Certifying(Doing, Pending, 0, NONE, NONE)],
    [PostTask(1, Doing, NONE, NONE)], [], [])

  lemma BatchRuns()
    ensures LeadsTo(Start(1, 1), During(SUBMITTING, Job(PostJob, 0)))
  {
    var s := Start(1, 1);
    var db := PostTasks.DoingTask(PostTasks.Generate(WRITTEN, 1), 0);
    PostsWritten();
    assert db.posts == SUBMITTING.posts;
    assert DefaultSite(WRITTEN.sites, 1) == 0;
    assert FirstPost(WRITTEN, 1) by {
      assert forall i :: PostEligible(WRITTEN, i) ==> WRITTEN.posts[i].createdAt == 0;
    }
    assert FirstPublish(WRITTEN, NONE) && FirstDeploy(WRITTEN, NONE);
    hide LeadsTo, FirstPost, FirstPublish, FirstDeploy, PostTasks.DoingTask, PostTasks.Generate;
    Selecting(s, At(WRITTEN), NONE, NONE, 1, Submit(1));
    PostsRun(s, At(WRITTEN).(phase := Chosen(Submit(1))), 1, db);
  }

  /** The job of the batch completes, its order is generated and its posts finish. */
  lemma BatchEnds(s: State, a: Db, b: Db, c: Db)
    requires LeadsTo(s, During(a, Job(PostJob, 0))) && |a.postTasks| == 1
    requires SiteOrders.GeneratePublishOrder(a, a.postTasks[0].user) == SiteOrders.Generated(b, 0)
    requires c == PostTasks.FinishTask(b, 0, 0)
    ensures LeadsTo(s, At(c))
  {
    var closing := At(b).(closing := map[0 := 0]);
    hide LeadsTo, SiteOrders.GeneratePublishOrder, PostTasks.FinishTask;
    assert closing.closing - {0} == map[];
    Onward(s, During(a, Job(PostJob, 0)), Worker(ACompletePosts(0)), closing);
    Onward(s, closing, Worker(AFinishPosts(0)), At(c));
  }

  /** The only order that waits is publish order o, or a post that is not older; its publish runs. */
  lemma OrderPublishes(s: State, a: Db, o: int, p: int, linked: Db, u: int, b: Db)
    requires LeadsTo(s, At(a)) && 0 <= o < |a.publishOrders| && NONE <= p < |a.posts|
    requires FirstDeploy(a, NONE) && FirstPublish(a, o) && FirstPost(a, p)
    requires p == NONE || a.publishOrders[o].createdAt <= a.posts[p].createdAt
    requires a.publishOrders[o].site < |a.sites| && Settled(a.sites[a.publishOrders[o].site].status)
    requires linked == SiteTasks.LinkOrGenerate(a, a.publishOrders[o].site, a.publishOrders[o].user)
    requires o < |linked.publishOrders|
    requires PendingTaskOf(linked.publishTasks, linked.publishOrders[o].site, linked.publishOrders[o].user) == u != NONE
    requires b == SiteTasks.DoingPublish(linked, u)
    ensures LeadsTo(s, At(linked).(phase := Linked(o)))
    ensures LeadsTo(s, During(b, Job(PublishJob, u)))
  {
    hide LeadsTo, FirstDeploy, FirstPublish, FirstPost, SiteTasks.LinkOrGenerate, SiteTasks.DoingPublish;
    Selecting(s, At(a), NONE, o, p, Publish(o));
    PublishLinked(s, At(a).(phase := Chosen(Publish(o))), o, linked);
    PublishRuns(s, At(linked).(phase := Linked(o)), o, u, b);
  }

  // ---- both posts are submitted, and their publish runs ----

  const SUBMITTED: Db := Rows(Deployed,
    [DEFAULT_POST, Plain(Finished, Pending, 0, 0, NONE), Certifying(Finished, Pending, 0, 0, NONE)],
    [PostTask(1, Finished, 0, NONE)], [PubOrder(Pending, NONE)], []).(links := multiset{LINK})

  const FIRST_LINKED: Db := Rows(Deployed,
    [DEFAULT_POST, Plain(Finished, Pending, 0, 0, 0), Certifying(Finished, Pending, 0, 0, 0)],
    [PostTask(1, Finished, 0, 0)], [PubOrder(Pending, 0)], [PubTask(Pending)]).(links := multiset{LINK})

  const PUBLISHING: Db := Rows(Publishing,
    [DEFAULT_POST, Plain(Finished, Doing, 0, 0, 0), Certifying(Finished, Doing, 0, 0, 0)],
    [PostTask(1, Finished, 0, 0)], [PubOrder(Doing, 0)], [PubTask(Doing)]).(links := multiset{LINK})

  lemma BothSubmitted()
    ensures LeadsTo(Start(1, 1), At(SUBMITTED))
  {
    var ordered := SUBMITTING.(publishOrders := [PubOrder(Pending, NONE)], links := multiset{LINK});
    BatchRuns();
    assert DefaultSite(SUBMITTING.sites, 1) == 0;
    assert SiteOrders.GeneratePublishOrder(SUBMITTING, 1) == SiteOrders.Generated(ordered, 0);
    assert PostTasks.FinishTask(ordered, 0, 0).posts == SUBMITTED.posts;
    hide LeadsTo, SiteOrders.GeneratePublishOrder;
    BatchEnds(Start(1, 1), SUBMITTING, ordered, SUBMITTED);
  }

  lemma FirstLink()
    ensures SiteTasks.LinkOrGenerate(SUBMITTED, 0, 1) == FIRST_LINKED
  {
    assert LatestTaskOf(SUBMITTED.publishTasks, 0, 1) == NONE;
    var db := SiteTasks.LinkOrGenerate(SUBMITTED, 0, 1);
    assert db.publishOrders == FIRST_LINKED.publishOrders;
    assert OrdersOfTask(db.publishOrders, 0) == {0};
    assert db.posts == FIRST_LINKED.posts && db.postTasks == FIRST_LINKED.postTasks;
  }

  lemma FirstMarking()
    ensures SiteTasks.DoingPublish(FIRST_LINKED, 0) == PUBLISHING
  {
    var db' := SiteTasks.DoingPublish(FIRST_LINKED, 0);
    assert db'.posts == PUBLISHING.posts && db'.publishOrders == PUBLISHING.publishOrders;
  }

  lemma BothPublishing()
    ensures LeadsTo(Start(1, 1), During(PUBLISHING, Job(PublishJob, 0)))
  {
    BothSubmitted();
    FirstLink();
    FirstMarking();
    assert FirstDeploy(SUBMITTED, NONE) && FirstPost(SUBMITTED, NONE);
    assert FirstPublish(SUBMITTED, 0) by {
      assert PublishEligible(SUBMITTED, 0);
    }
    hide LeadsTo, FirstDeploy, FirstPublish, FirstPost, SiteTasks.LinkOrGenerate, SiteTasks.DoingPublish;
    OrderPublishes(Start(1, 1), SUBMITTED, 0, NONE, FIRST_LINKED, 0, PUBLISHING);
  }

  // ---- a certificate is lost late ----

  const LOST_CERTIFICATE: PostOrder := PostOrder(1, 0, Failed, Failed, Failed, true, false, 0, 0, 0)

  const RESTARTED: PostOrder := PostOrder(1, 0, Pending, Pending, Pending, true, false, 0, 0, 0)

  const CERTIFICATE_LOST: Db := PUBLISHING.(
    posts := [DEFAULT_POST, Plain(Finished, Doing, 0, 0, 0), LOST_CERTIFICATE])

  const CERTIFICATE_RETRIED: Db := PUBLISHING.(
    posts := [DEFAULT_POST, Plain(Finished, Doing, 0, 0, 0), RESTARTED])

  lemma CertificateSteps()
    ensures OutsideEnabled(During(PUBLISHING, Job(PublishJob, 0)), ALoseCertificate(2))
    ensures !Overtaking.Harmless(During(PUBLISHING, Job(PublishJob, 0)), Outside(ALoseCertificate(2)))
    ensures PostOrders.LoseCertificate(PUBLISHING, 2) == CERTIFICATE_LOST
    ensures PostOrders.RetryPost(CERTIFICATE_LOST, 1, 2) == PostOrders.Retried(CERTIFICATE_RETRIED)
  {
    assert PostOrders.LoseCertificate(PUBLISHING, 2).posts == CERTIFICATE_LOST.posts;
    assert PostOrders.RetryPost(CERTIFICATE_LOST, 1, 2).db.posts == CERTIFICATE_RETRIED.posts;
  }

  /** A certificate is lost while its post is being published, and the post is retried: the retry keeps the
      publish links, so that the post is published without having been submitted again. */
  lemma LateCertificateOvertakes() returns (before: State, s: State)
    ensures LeadsTo(Start(1, 1), before) && OutsideEnabled(before, ALoseCertificate(2))
    ensures !Overtaking.Harmless(before, Outside(ALoseCertificate(2)))
    ensures LeadsTo(before, s) && 2 < |s.db.posts|
    ensures s.db.posts[2].publish == Finished && s.db.posts[2].submit == Pending
  {
    hide LeadsTo, PostOrders.RetryPost, PostOrders.LoseCertificate;
    var j := Job(PublishJob, 0);
    before := During(PUBLISHING, j);
    s := At(SiteTasks.FinishPublish(CERTIFICATE_RETRIED, 0));
    BothPublishing();
    CertificateSteps();
    Here(before);
    Onward(before, before, Outside(ALoseCertificate(2)), During(CERTIFICATE_LOST, j));
    RetryAsked(before, During(CERTIFICATE_LOST, j), 1, 2, CERTIFICATE_RETRIED);
    PublishEnds(before, CERTIFICATE_RETRIED, 0, s.db);
  }

  // ---- a retry is lost ----

  const REPOINT: Repoint := Repoint(0, 1)

  const FAILED: Db := Rows(PublishFailed,
    [DEFAULT_POST, Plain(Finished, Failed, 0, 0, 0), Certifying(Finished, Failed, 0, 0, 0)],
    [PostTask(1, Finished, 0, 0)], [PubOrder(Failed, 0)], [PubTask(Failed)]).(links := multiset{LINK})

  const RETRIED: Db := FAILED.(
    posts := [DEFAULT_POST, Plain(Finished, Pending, 0, NONE, NONE), Certifying(Finished, Failed, 0, 0, 0)],
    retries := multiset{RetryEvent(1, 0)})

  const HALF_HANDLED: Db := RETRIED.(
    publishOrders := [PubOrder(Failed, 0), PubOrder(Pending, NONE)],
    links := multiset{LINK, LINK}, retries := multiset{}, repoints := multiset{REPOINT})

  const SECOND_LINKED: Db := HALF_HANDLED.(
    posts := [DEFAULT_POST, Plain(Finished, Pending, 0, NONE, NONE), Certifying(Finished, Failed, 0, 0, 1)],
    postTasks := [PostTask(1, Finished, 0, 1)],
    publishOrders := [PubOrder(Failed, 1), PubOrder(Pending, 1)], publishTasks := [PubTask(Failed), PubTask(Pending)])

  const REPUBLISHING: Db := SECOND_LINKED.(
    sites := [Site(1, Publishing)],
    posts := [DEFAULT_POST, Plain(Finished, Pending, 0, NONE, NONE), Certifying(Finished, Doing, 0, 0, 1)],
    publishOrders := [PubOrder(Doing, 1), PubOrder(Doing, 1)], publishTasks := [PubTask(Failed), PubTask(Doing)])

  const REPUBLISHED: Db := SECOND_LINKED.(
    sites := [Site(1, Published)],
    posts := [DEFAULT_POST, Plain(Finished, Pending, 0, NONE, NONE), Certifying(Finished, Finished, 0, 0, 1)],
    publishOrders := [PubOrder(Finished, 1), PubOrder(Finished, 1)], publishTasks := [PubTask(Failed), PubTask(Finished)])

  const FORGOTTEN: Db := REPUBLISHED.(
    posts := [DEFAULT_POST, Plain(Finished, Pending, 0, 1, NONE), Certifying(Finished, Finished, 0, 1, 1)],
    postTasks := [PostTask(1, Finished, 1, 1)], repoints := multiset{})

  lemma PublishFails()
    ensures SiteTasks.FailPublish(PUBLISHING, 0) == FAILED
  {
    var db := SiteTasks.FailPublish(PUBLISHING, 0);
    assert db.posts == FAILED.posts && db.publishOrders == FAILED.publishOrders;
  }

  lemma RetryBegins()
    ensures PostOrders.RetryPost(FAILED, 1, 1) == PostOrders.Retried(RETRIED)
    ensures SiteOrders.BeginRetry(RETRIED, RetryEvent(1, 0)) == HALF_HANDLED
  {
    assert PostOrders.RetryPost(FAILED, 1, 1).db.posts == RETRIED.posts;
    assert DefaultSite(RETRIED.sites, 1) == 0 && PendingOrderOf(RETRIED.publishOrders, 0, 1) == NONE;
  }

  lemma RetryHalfHandled()
    ensures LeadsTo(Start(1, 1), At(HALF_HANDLED))
  {
    var s := Start(1, 1);
    BothPublishing();
    PublishFails();
    RetryBegins();
    assert RetryEvent(1, 0) in RETRIED.retries;
    hide LeadsTo, SiteTasks.MovePublish, PostOrders.RetryPost, SiteOrders.BeginRetry;
    PublishEnds(s, PUBLISHING, 0, FAILED);
    RetryAsked(s, At(FAILED), 1, 1, RETRIED);
    RetryHandled(s, At(RETRIED), RetryEvent(1, 0), HALF_HANDLED);
  }

  lemma SecondLink()
    ensures SiteTasks.LinkOrGenerate(HALF_HANDLED, 0, 1) == SECOND_LINKED
  {
    assert LatestTaskOf(HALF_HANDLED.publishTasks, 0, 1) == 0;
    var db := SiteTasks.LinkOrGenerate(HALF_HANDLED, 0, 1);
    assert db.publishOrders == SECOND_LINKED.publishOrders;
    assert OrdersOfTask(db.publishOrders, 1) == {0, 1};
    assert db.posts == SECOND_LINKED.posts && db.postTasks == SECOND_LINKED.postTasks;
  }

  lemma SecondRound()
    ensures SiteTasks.DoingPublish(SECOND_LINKED, 1) == REPUBLISHING
    ensures SiteTasks.FinishPublish(REPUBLISHING, 1) == REPUBLISHED
    ensures SiteOrders.EndRetry(REPUBLISHED, REPOINT) == FORGOTTEN
  {
    var doing := SiteTasks.DoingPublish(SECOND_LINKED, 1);
    assert doing.posts == REPUBLISHING.posts && doing.publishOrders == REPUBLISHING.publishOrders;
    var done := SiteTasks.FinishPublish(REPUBLISHING, 1);
    assert done.posts == REPUBLISHED.posts && done.publishOrders == REPUBLISHED.publishOrders;
    assert SiteOrders.EndRetry(REPUBLISHED, REPOINT).posts == FORGOTTEN.posts;
  }

  lemma SecondSelection(db: Db)
    requires db == HALF_HANDLED
    ensures FirstDeploy(db, NONE) && FirstPublish(db, 1) && FirstPost(db, NONE)
    ensures PendingTaskOf(SECOND_LINKED.publishTasks, 0, 1) == 1
  {
    assert PublishEligible(db, 1);
    assert forall i :: PublishEligible(db, i) ==> i == 1;
  }

  /** Up to that point nothing is wrong. */
  lemma LinkedRowsFit()
    ensures Overtaking.InOrder(SECOND_LINKED) && Ownership.Own(SECOND_LINKED) && Hanging.AllHang(SECOND_LINKED)
    ensures Hanging.Stamped(SECOND_LINKED, 1)
  {
    assert REPOINT in SECOND_LINKED.repoints && Hanging.Awaited(SECOND_LINKED, 0);
  }

  lemma LinkedIsFit(s: State)
    requires s == At(SECOND_LINKED).(phase := Linked(1)) && LeadsTo(Start(1, 1), s)
    ensures Hanging.Fit(s)
  {
    LinkedRowsFit();
    assert SECOND_LINKED.publishOrders[1].task == 1;
    hide Overtaking.InOrder, Ownership.Own, Hanging.AllHang, Hanging.Stamped, Inv;
    assert Reachable(s);
    ReachableInv(s);
  }

  lemma MarkIsCareless(s: State)
    requires s == At(SECOND_LINKED).(phase := Linked(1))
    ensures DispatcherEnabled(s, AMarkPublish) && !Hanging.Careful(s, Dispatcher(AMarkPublish))
  {
    assert REPOINT in s.db.repoints && Hanging.OnTask(s.db.publishOrders, REPOINT.order, 1);
  }

  lemma PostIsForgotten()
    ensures Stuck.IsStuck(FORGOTTEN, 1)
    ensures PostOrders.RetryPost(FORGOTTEN, 1, 1) == PostOrders.Refused(PostOrders.NoRetryRequired)
  {
  }

  lemma SecondPublish()
    ensures LeadsTo(Start(1, 1), At(SECOND_LINKED).(phase := Linked(1)))
  {
    RetryHalfHandled();
    SecondLink();
    SecondRound();
    SecondSelection(HALF_HANDLED);
    hide LeadsTo, FirstDeploy, FirstPublish, FirstPost, SiteTasks.LinkOrGenerate, SiteTasks.DoingPublish;
    OrderPublishes(Start(1, 1), HALF_HANDLED, 1, NONE, SECOND_LINKED, 1, REPUBLISHING);
  }

  lemma ForgottenReached(s: State)
    requires LeadsTo(s, At(SECOND_LINKED).(phase := Linked(1)))
    ensures LeadsTo(s, At(FORGOTTEN))
  {
    SecondRound();
    SecondSelection(HALF_HANDLED);
    assert REPOINT in REPUBLISHED.repoints;
    hide LeadsTo, FirstDeploy, FirstPublish, FirstPost, SiteTasks.MovePublish, SiteOrders.EndRetry;
    PublishRuns(s, At(SECOND_LINKED).(phase := Linked(1)), 1, 1, REPUBLISHING);
    PublishEnds(s, REPUBLISHING, 1, REPUBLISHED);
    RetryPoints(s, At(REPUBLISHED), REPOINT, FORGOTTEN);
  }

  /** A publish is linked and marked while the retry of a post is half handled: when it is done the post is
      PENDING on a FINISHED order, nothing is under way any more, and asking again is refused. */
  lemma RetryGetsLost() returns (before: State, s: State)
    ensures LeadsTo(Start(1, 1), before) && DispatcherEnabled(before, AMarkPublish)
    ensures Hanging.Fit(before) && !Hanging.Careful(before, Dispatcher(AMarkPublish))
    ensures LeadsTo(before, s) && Stuck.IsStuck(s.db, 1)
    ensures s.db.retries == multiset{} && s.db.repoints == multiset{} && s.waiting == s.active == multiset{}
    ensures PostOrders.RetryPost(s.db, 1, 1) == PostOrders.Refused(PostOrders.NoRetryRequired)
  {
    before := At(SECOND_LINKED).(phase := Linked(1));
    SecondPublish();
    Here(before);
    ForgottenReached(before);
    PostIsForgotten();
    s := At(FORGOTTEN);
    hide LeadsTo, PostOrders.RetryPost, Hanging.Fit, Hanging.Careful, Stuck.IsStuck;
    MarkIsCareless(before);
    LinkedIsFit(before);
  }

  // ---- a post of the batch is reported, the other one published, failed and retried ----

  const REPORTED: Db := SUBMITTING.(
    posts := [DEFAULT_POST, Plain(Failed, Failed, 0, NONE, NONE), Certifying(Doing, Pending, 0, NONE, NONE)])

  const HALF_SUBMITTED: Db := Rows(Deployed,
    [DEFAULT_POST, Plain(Failed, Failed, 0, NONE, NONE), Certifying(Finished, Pending, 0, 0, NONE)],
    [PostTask(1, Finished, 0, NONE)], [PubOrder(Pending, NONE)], []).(links := multiset{LINK})

  const HALF_LINKED: Db := Rows(Deployed,
    [DEFAULT_POST, Plain(Failed, Failed, 0, NONE, NONE), Certifying(Finished, Pending, 0, 0, 0)],
    [PostTask(1, Finished, 0, 0)], [PubOrder(Pending, 0)], [PubTask(Pending)]).(links := multiset{LINK})

  const HALF_PUBLISHING: Db := Rows(Publishing,
    [DEFAULT_POST, Plain(Failed, Failed, 0, NONE, NONE), Certifying(Finished, Doing, 0, 0, 0)],
    [PostTask(1, Finished, 0, 0)], [PubOrder(Doing, 0)], [PubTask(Doing)]).(links := multiset{LINK})

  const HALF_FAILED: Db := Rows(PublishFailed,
    [DEFAULT_POST, Plain(Failed, Failed, 0, NONE, NONE), Certifying(Finished, Failed, 0, 0, 0)],
    [PostTask(1, Finished, 0, 0)], [PubOrder(Failed, 0)], [PubTask(Failed)]).(links := multiset{LINK})

  const HALF_RETRIED: Db := HALF_FAILED.(
    posts := [DEFAULT_POST, Plain(Failed, Failed, 0, NONE, NONE), Certifying(Finished, Pending, 0, NONE, NONE)],
    retries := multiset{RetryEvent(1, 0)})

  const HALF_BEGUN: Db := HALF_RETRIED.(
    publishOrders := [PubOrder(Failed, 0), PubOrder(Pending, NONE)],
    links := multiset{LINK, LINK}, retries := multiset{}, repoints := multiset{REPOINT})

  /** The re-pointing takes the post along whose submission has failed. */
  const DRAGGED: Db := HALF_BEGUN.(
    posts := [DEFAULT_POST, Plain(Failed, Failed, 0, 1, NONE), Certifying(Finished, Pending, 0, 1, NONE)],
    postTasks := [PostTask(1, Finished, 1, 0)], repoints := multiset{})

  const DRAGGED_LINKED: Db := DRAGGED.(
    posts := [DEFAULT_POST, Plain(Failed, Failed, 0, 1, 1), Certifying(Finished, Pending, 0, 1, 1)],
    postTasks := [PostTask(1, Finished, 1, 1)], links := multiset{LINK},
    publishOrders := [PubOrder(Failed, 1), PubOrder(Pending, 1)], publishTasks := [PubTask(Failed), PubTask(Pending)])

  const RESUBMITTED: Db := DRAGGED_LINKED.(
    posts := [DEFAULT_POST, Plain(Pending, Pending, NONE, 1, 1), Certifying(Finished, Pending, 0, 1, 1)])

  const OVERTAKING: Db := RESUBMITTED.(
    sites := [Site(1, Publishing)],
    posts := [DEFAULT_POST, Plain(Pending, Doing, NONE, 1, 1), Certifying(Finished, Doing, 0, 1, 1)],
    publishOrders := [PubOrder(Doing, 1), PubOrder(Doing, 1)], publishTasks := [PubTask(Failed), PubTask(Doing)])

  /** The report names a post of the job's own batch. */
  lemma HalfSubmitted()
    ensures LeadsTo(Start(1, 1), At(HALF_SUBMITTED))
  {
    var s := Start(1, 1);
    var j := Job(PostJob, 0);
    var ordered := REPORTED.(publishOrders := [PubOrder(Pending, NONE)], links := multiset{LINK});
    BatchRuns();
    assert PostOrders.FailSubmit(SUBMITTING, 1).posts == REPORTED.posts;
    assert Next(During(SUBMITTING, j), Worker(AReport(0, 1))) == During(REPORTED, j);
    assert DefaultSite(REPORTED.sites, 1) == 0;
    assert SiteOrders.GeneratePublishOrder(REPORTED, 1) == SiteOrders.Generated(ordered, 0);
    assert PostTasks.FinishTask(ordered, 0, 0).posts == HALF_SUBMITTED.posts;
    hide LeadsTo, Next, SiteOrders.GeneratePublishOrder;
    Onward(s, During(SUBMITTING, j), Worker(AReport(0, 1)), During(REPORTED, j));
    BatchEnds(s, REPORTED, ordered, HALF_SUBMITTED);
  }

  lemma HalfLink()
    ensures SiteTasks.LinkOrGenerate(HALF_SUBMITTED, 0, 1) == HALF_LINKED
    ensures SiteTasks.DoingPublish(HALF_LINKED, 0) == HALF_PUBLISHING
    ensures SiteTasks.FailPublish(HALF_PUBLISHING, 0) == HALF_FAILED
  {
    assert LatestTaskOf(HALF_SUBMITTED.publishTasks, 0, 1) == NONE;
    var db := SiteTasks.LinkOrGenerate(HALF_SUBMITTED, 0, 1);
    assert db.publishOrders == HALF_LINKED.publishOrders;
    assert OrdersOfTask(db.publishOrders, 0) == {0};
    assert db.posts == HALF_LINKED.posts && db.postTasks == HALF_LINKED.postTasks;
    var doing := SiteTasks.DoingPublish(HALF_LINKED, 0);
    assert doing.posts == HALF_PUBLISHING.posts && doing.publishOrders == HALF_PUBLISHING.publishOrders;
    var failed := SiteTasks.FailPublish(HALF_PUBLISHING, 0);
    assert failed.posts == HALF_FAILED.posts && failed.publishOrders == HALF_FAILED.publishOrders;
  }

  lemma HalfSelection()
    ensures FirstDeploy(HALF_SUBMITTED, NONE) && FirstPublish(HALF_SUBMITTED, 0) && FirstPost(HALF_SUBMITTED, NONE)
  {
    assert PublishEligible(HALF_SUBMITTED, 0);
  }

  lemma HalfPublished()
    ensures LeadsTo(Start(1, 1), At(HALF_FAILED))
  {
    HalfSubmitted();
    HalfLink();
    HalfSelection();
    hide LeadsTo, FirstDeploy, FirstPublish, FirstPost, SiteTasks.LinkOrGenerate, SiteTasks.MovePublish;
    OrderPublishes(Start(1, 1), HALF_SUBMITTED, 0, NONE, HALF_LINKED, 0, HALF_PUBLISHING);
    PublishEnds(Start(1, 1), HALF_PUBLISHING, 0, HALF_FAILED);
  }

  lemma HalfRetry()
    ensures PostOrders.RetryPost(HALF_FAILED, 1, 2) == PostOrders.Retried(HALF_RETRIED)
    ensures SiteOrders.BeginRetry(HALF_RETRIED, RetryEvent(1, 0)) == HALF_BEGUN
    ensures SiteOrders.EndRetry(HALF_BEGUN, REPOINT) == DRAGGED
  {
    assert PostOrders.RetryPost(HALF_FAILED, 1, 2).db.posts == HALF_RETRIED.posts;
    assert DefaultSite(HALF_RETRIED.sites, 1) == 0 && PendingOrderOf(HALF_RETRIED.publishOrders, 0, 1) == NONE;
    var db := SiteOrders.EndRetry(HALF_BEGUN, REPOINT);
    assert db.posts == DRAGGED.posts && db.postTasks == DRAGGED.postTasks;
  }

  lemma HalfBegun()
    ensures LeadsTo(Start(1, 1), At(HALF_BEGUN))
  {
    var s := Start(1, 1);
    HalfPublished();
    HalfRetry();
    assert RetryEvent(1, 0) in HALF_RETRIED.retries;
    hide LeadsTo, PostOrders.RetryPost, SiteOrders.BeginRetry;
    RetryAsked(s, At(HALF_FAILED), 1, 2, HALF_RETRIED);
    RetryHandled(s, At(HALF_RETRIED), RetryEvent(1, 0), HALF_BEGUN);
  }

  lemma DraggedLink()
    ensures SiteTasks.LinkOrGenerate(DRAGGED.(links := multiset{LINK}), 0, 1) == DRAGGED_LINKED
    ensures PostOrders.RetryPost(DRAGGED_LINKED, 1, 1) == PostOrders.Retried(RESUBMITTED)
  {
    var from := DRAGGED.(links := multiset{LINK});
    assert LatestTaskOf(from.publishTasks, 0, 1) == 0;
    var db := SiteTasks.LinkOrGenerate(from, 0, 1);
    assert db.publishOrders == DRAGGED_LINKED.publishOrders;
    assert OrdersOfTask(db.publishOrders, 1) == {0, 1};
    assert db.posts == DRAGGED_LINKED.posts && db.postTasks == DRAGGED_LINKED.postTasks;
    assert PostOrders.RetryPost(DRAGGED_LINKED, 1, 1).db.posts == RESUBMITTED.posts;
  }

  lemma OvertakingLink()
    ensures SiteTasks.LinkOrGenerate(RESUBMITTED, 0, 1) == RESUBMITTED
    ensures SiteTasks.DoingPublish(RESUBMITTED, 1) == OVERTAKING
    ensures PendingTaskOf(RESUBMITTED.publishTasks, 0, 1) == 1
  {
    assert LatestTaskOf(RESUBMITTED.publishTasks, 0, 1) == 1;
    var db := SiteTasks.LinkOrGenerate(RESUBMITTED, 0, 1);
    assert db.publishOrders == RESUBMITTED.publishOrders;
    assert db.posts == RESUBMITTED.posts && db.postTasks == RESUBMITTED.postTasks;
    var doing := SiteTasks.DoingPublish(RESUBMITTED, 1);
    assert doing.posts == OVERTAKING.posts && doing.publishOrders == OVERTAKING.publishOrders;
  }

  lemma OvertakingSelection()
    ensures FirstDeploy(RESUBMITTED, NONE) && FirstPublish(RESUBMITTED, 1) && FirstPost(RESUBMITTED, 1)
  {
    assert PublishEligible(RESUBMITTED, 1) && PostEligible(RESUBMITTED, 1);
    assert forall i :: PublishEligible(RESUBMITTED, i) ==> i == 1;
    assert forall i :: PostEligible(RESUBMITTED, i) ==> RESUBMITTED.posts[i].createdAt == 0;
  }

  lemma Resubmission(s: State)
    requires LeadsTo(s, At(HALF_BEGUN))
    ensures LeadsTo(s, At(RESUBMITTED))
  {
    HalfRetry();
    DraggedLink();
    assert REPOINT in HALF_BEGUN.repoints;
    assert DRAGGED.links - multiset{LINK} == multiset{LINK} && LINK in DRAGGED.links;
    hide LeadsTo, SiteTasks.LinkOrGenerate, PostOrders.RetryPost, SiteOrders.EndRetry;
    RetryPoints(s, At(HALF_BEGUN), REPOINT, DRAGGED);
    LinkDelivered(s, At(DRAGGED), LINK, DRAGGED_LINKED);
    RetryAsked(s, At(DRAGGED_LINKED), 1, 1, RESUBMITTED);
  }

  lemma OvertakingRuns(s: State)
    requires LeadsTo(s, At(HALF_BEGUN))
    ensures LeadsTo(s, During(OVERTAKING, Job(PublishJob, 1)))
  {
    Resubmission(s);
    OvertakingLink();
    OvertakingSelection();
    hide LeadsTo, FirstDeploy, FirstPublish, FirstPost, SiteTasks.LinkOrGenerate, SiteTasks.DoingPublish;
    OrderPublishes(s, RESUBMITTED, 1, 1, RESUBMITTED, 1, OVERTAKING);
  }

  lemma RepointIsHarmful()
    ensures OutsideEnabled(At(HALF_BEGUN), AEndRetry(REPOINT))
    ensures !Overtaking.Harmless(At(HALF_BEGUN), Outside(AEndRetry(REPOINT)))
  {
    assert REPOINT in HALF_BEGUN.repoints && HALF_BEGUN.posts[1].postTask == REPOINT.postTask;
  }

  /** A post is reported by its own job, the other post of the batch is submitted, fails to publish and is
      retried: the re-pointing takes the failed post along, and after its own retry it is published while
      it still waits to be submitted again. */
  lemma RetriedSiblingOvertakes() returns (before: State, s: State)
    ensures LeadsTo(Start(1, 1), before) && OutsideEnabled(before, AEndRetry(REPOINT))
    ensures !Overtaking.Harmless(before, Outside(AEndRetry(REPOINT)))
    ensures LeadsTo(before, s) && 1 < |s.db.posts|
    ensures s.db.posts[1].publish == Finished && s.db.posts[1].submit == Pending
  {
    hide LeadsTo;
    before := At(HALF_BEGUN);
    s := At(SiteTasks.FinishPublish(OVERTAKING, 1));
    RepointIsHarmful();
    HalfBegun();
    Here(before);
    OvertakingRuns(before);
    PublishEnds(before, OVERTAKING, 1, s.db);
  }

  // ---- the overtaking publish fails, and its unsubmitted post is retried ----

  const NOT_ANCHORED: Db := OVERTAKING.(
    sites := [Site(1, PublishFailed)],
    posts := [DEFAULT_POST, Plain(Pending, Failed, NONE, 1, 1), Certifying(Finished, Failed, 0, 1, 1)],
    publishOrders := [PubOrder(Failed, 1), PubOrder(Failed, 1)], publishTasks := [PubTask(Failed), PubTask(Failed)])

  const ASKED: Db := NOT_ANCHORED.(
    posts := [DEFAULT_POST, Plain(Pending, Pending, NONE, NONE, NONE), Certifying(Finished, Failed, 0, 1, 1)],
    retries := multiset{RetryEvent(1, NONE)})

  const ASKED_BEGUN: Db := ASKED.(
    publishOrders := [PubOrder(Failed, 1), PubOrder(Failed, 1), PubOrder(Pending, NONE)],
    links := multiset{LINK, LINK}, retries := multiset{}, repoints := multiset{Repoint(NONE, 2)})

  const DROPPED: Db := ASKED_BEGUN.(repoints := multiset{})

  lemma UnsubmittedFails()
    ensures SiteTasks.FailPublish(OVERTAKING, 1) == NOT_ANCHORED
    ensures PostOrders.RetryPost(NOT_ANCHORED, 1, 1) == PostOrders.Retried(ASKED)
    ensures SiteOrders.BeginRetry(ASKED, RetryEvent(1, NONE)) == ASKED_BEGUN
    ensures SiteOrders.EndRetry(ASKED_BEGUN, Repoint(NONE, 2)) == DROPPED
  {
    var db := SiteTasks.FailPublish(OVERTAKING, 1);
    assert db.posts == NOT_ANCHORED.posts && db.publishOrders == NOT_ANCHORED.publishOrders;
    assert PostOrders.RetryPost(NOT_ANCHORED, 1, 1).db.posts == ASKED.posts;
    assert DefaultSite(ASKED.sites, 1) == 0 && PendingOrderOf(ASKED.publishOrders, 0, 1) == NONE;
  }

  lemma NotAnchoredReached()
    ensures LeadsTo(Start(1, 1), At(NOT_ANCHORED))
  {
    HalfBegun();
    OvertakingRuns(Start(1, 1));
    UnsubmittedFails();
    hide LeadsTo, SiteTasks.FailPublish;
    PublishEnds(Start(1, 1), OVERTAKING, 1, NOT_ANCHORED);
  }

  lemma RetryDropped()
    ensures LeadsTo(At(NOT_ANCHORED), At(DROPPED))
  {
    var s := At(NOT_ANCHORED);
    UnsubmittedFails();
    assert RetryEvent(1, NONE) in ASKED.retries && Repoint(NONE, 2) in ASKED_BEGUN.repoints;
    Here(s);
    hide LeadsTo, PostOrders.RetryPost, SiteOrders.BeginRetry, SiteOrders.EndRetry;
    RetryAsked(s, s, 1, 1, ASKED);
    RetryHandled(s, At(ASKED), RetryEvent(1, NONE), ASKED_BEGUN);
    RetryPoints(s, At(ASKED_BEGUN), Repoint(NONE, 2), DROPPED);
  }

  /** Then the retry has no post task to work on: its handler makes an order, but the post is PENDING without
      one, and a further retry is refused. */
  lemma UnanchoredRetryIsDropped() returns (before: State, s: State)
    ensures LeadsTo(Start(1, 1), before) && 1 < |before.db.posts| && Ownership.Unanchored(before.db.posts[1])
    ensures LeadsTo(before, s) && s.db.retries == multiset{} && s.db.repoints == multiset{}
    ensures 1 < |s.db.posts| && s.db.posts[1].publish == Pending && s.db.posts[1].publishOrder == NONE
    ensures PostOrders.RetryPost(s.db, s.db.posts[1].user, 1) == PostOrders.Refused(PostOrders.NoRetryRequired)
  {
    hide LeadsTo;
    before := At(NOT_ANCHORED);
    s := At(DROPPED);
    NotAnchoredReached();
    RetryDropped();
  }

  // ---- the head of the queue cannot be dispatched ----

  /** User 1 has a site that was never deployed, and a post; user 2 asks for a deployment later. */
  const BLOCKED: Db := EmptyDb.(
    clock := 1, sites := [Site(1, Configured), Site(2, Configured)],
    posts := [PostOrder(1, 0, Pending, Pending, Nothing, false, false, NONE, NONE, NONE),
              PostOrder(2, 1, Finished, Finished, Nothing, false, false, NONE, NONE, NONE)],
    deployOrders := [DeployOrder(2, 1, 1, Pending, NONE)])

  lemma BlockedReached()
    ensures LeadsTo(Start(1, 1), Start(1, 1).(db := BLOCKED))
  {
    var s := Start(1, 1);
    var t1 := s.(db := EmptyDb.(sites := [Site(1, Configured)]));
    var t2 := s.(db := t1.db.(posts := [BLOCKED.posts[0]]));
    var t3 := s.(db := t2.db.(clock := 1));
    var t4 := s.(db := t3.db.(sites := BLOCKED.sites));
    Here(s);
    assert Next(s, Outside(ACreateSite(1))) == t1;
    assert Next(t1, Outside(ASavePost(1))) == t2;
    assert Next(t2, Outside(ATick)) == t3;
    assert Next(t3, Outside(ACreateSite(2))) == t4;
    assert DeployOrderOf(t4.db.deployOrders, 1, 2) == NONE;
    assert Next(t4, Outside(ARequestDeploy(2, 1))) == s.(db := BLOCKED);
    hide LeadsTo, Next;
    Onward(s, s, Outside(ACreateSite(1)), t1);
    Onward(s, t1, Outside(ASavePost(1)), t2);
    Onward(s, t2, Outside(ATick), t3);
    Onward(s, t3, Outside(ACreateSite(2)), t4);
    Onward(s, t4, Outside(ARequestDeploy(2, 1)), s.(db := BLOCKED));
  }

  lemma BlockedSelection()
    ensures FirstDeploy(BLOCKED, 0) && FirstPublish(BLOCKED, NONE) && FirstPost(BLOCKED, 0)
    ensures DefaultSite(BLOCKED.sites, 1) == 0
    ensures forall d, o, p :: FirstDeploy(BLOCKED, d) && FirstPublish(BLOCKED, o) && FirstPost(BLOCKED, p) ==>
      d == 0 && o == NONE && p == 0
  {
    assert DeployEligible(BLOCKED, 0) && PostEligible(BLOCKED, 0);
    assert forall i :: DeployEligible(BLOCKED, i) ==> i == 0;
    assert forall i :: PostEligible(BLOCKED, i) ==> i == 0;
  }

  /** The deploy order of user 2 could run, but every selection gives the same three candidates, of which
      the post of user 1 is the oldest; the dispatch refuses it and leaves everything as it was. */
  lemma HeadOfLineBlocks() returns (s: State)
    ensures LeadsTo(Start(1, 1), s) && s.phase == Idle && s.waiting == s.active == multiset{}
    ensures DeployEligible(s.db, 0) && s.db.deployOrders[0].user == 2
    ensures 0 < |s.db.posts| && s.db.posts[0].user == 1
    ensures forall d, o, p :: FirstDeploy(s.db, d) && FirstPublish(s.db, o) && FirstPost(s.db, p) ==>
      d == 0 && o == NONE && p == 0
    ensures var dispatch := OldestFirst.RefusedDispatch(0, NONE, 0); IsRun(s, dispatch) && After(s, dispatch) == s
  {
    s := Start(1, 1).(db := BLOCKED);
    BlockedReached();
    BlockedSelection();
    hide LeadsTo, FirstDeploy, FirstPublish, FirstPost, IsRun, After, OldestFirst.RefusedDispatch;
    OldestFirst.HeadBlocksDispatch(s, 0, NONE, 0);
  }
}

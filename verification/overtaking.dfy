/** Publishing never overtakes submission: which steps keep the publish links and the publish states of
    the posts behind their submission, and which do not. */
module Overtaking {
  import opened PipelineTypes
  import opened Tables
  import opened Pipeline
  import opened Invariants
  import opened Runs
  import opened StepTables
  import StepKeeps
  import PostOrders
  import PostTasks
  import SiteOrders
  import SiteTasks

  /** The post points at a publish order or carries a publish task. */
  predicate HasLinks(p: PostOrder) {
    p.publishOrder != NONE || p.publishTask != NONE
  }

  predicate SubmittedFirst(p: PostOrder) {
    p.publish in {Doing, Finished} ==> p.submit == Finished
  }

  /** Only a submitted post has publish links, is published or is being published. */
  predicate LinksSubmitted(p: PostOrder) {
    (HasLinks(p) ==> p.submit == Finished) && SubmittedFirst(p)
  }

  predicate AllLinksSubmitted(posts: seq<PostOrder>) {
    forall i :: 0 <= i < |posts| ==> LinksSubmitted(posts[i])
  }

  /** A post with publish links, and one whose publish alone failed, has a post task. */
  predicate OnBatch(p: PostOrder) {
    HasLinks(p) || (p.publish == Failed && p.submit != Failed) ==> p.postTask != NONE
  }

  predicate AllOnBatch(posts: seq<PostOrder>) {
    forall i :: 0 <= i < |posts| ==> OnBatch(posts[i])
  }

  /** Retries under way name a post task. */
  ghost predicate EventsOnBatch(db: Db) {
    (forall e :: e in db.retries ==> e.postTask != NONE) &&
    (forall r :: r in db.repoints ==> r.postTask != NONE)
  }

  ghost predicate InOrder(db: Db) {
    AllLinksSubmitted(db.posts) && AllOnBatch(db.posts) && EventsOnBatch(db)
  }

  /** All posts of the post task are submitted. */
  predicate BatchSubmitted(posts: seq<PostOrder>, t: int) {
    t != NONE ==> forall i :: 0 <= i < |posts| && posts[i].postTask == t ==> posts[i].submit == Finished
  }

  predicate NoLinks(posts: seq<PostOrder>, p: int) {
    0 <= p < |posts| ==> !HasLinks(posts[p])
  }

  /** The four guards. A post is reported, or loses its certificate, or starts again from the
      certificate, only as long as it has no publish links; and a batch is pointed at a publish order
      only when all of it is submitted. Everything else is free. */
  predicate Harmless(s: State, a: Action) {
    match a
    case Worker(AReport(_, p)) => NoLinks(s.db.posts, p)
    case Outside(ALoseCertificate(p)) => NoLinks(s.db.posts, p)
    case Outside(ARetry(user, p)) =>
      0 <= p < |s.db.posts| && s.db.posts[p].user == user && s.db.posts[p].certificate == Failed ==>
      !HasLinks(s.db.posts[p])
    case Outside(AEndRetry(r)) => BatchSubmitted(s.db.posts, r.postTask)
    case _ => true
  }

  // ---- operations ----

  /** Posts stay, events only go. */
  lemma Untouched(a: Db, b: Db)
    requires InOrder(a) && b.posts == a.posts && b.retries <= a.retries && b.repoints <= a.repoints
    ensures InOrder(b)
  {
  }

  lemma NewPost(db: Db, user: nat, submit: TaskState, publish: TaskState)
    requires InOrder(db) && ((submit == Pending && publish == Pending) || (submit == Finished && publish == Finished))
    ensures InOrder(PostOrders.SavePost(db, user, submit, publish))
  {
  }

  /** One row changes: the links stay behind the submission exactly when they do in the new row. */
  lemma OnePost(db: Db, p: int, row: PostOrder)
    requires InOrder(db) && 0 <= p < |db.posts|
    ensures AllLinksSubmitted(db.posts[p := row]) <==> LinksSubmitted(row)
    ensures LinksSubmitted(row) && OnBatch(row) ==> InOrder(db.(posts := db.posts[p := row]))
  {
    assert db.posts[p := row][p] == row;
  }

  lemma DeploySaved(db: Db, user: nat, site: int)
    requires InOrder(db)
    ensures InOrder(SiteOrders.SaveDeployOrder(db, user, site))
  {
    NewPost(db, user, Finished, Finished);
    hide InOrder;
    var db' := SiteOrders.SaveDeployOrder(db, user, site);
    Untouched(if db'.posts == db.posts then db else PostOrders.SavePost(db, user, Finished, Finished), db');
  }

  lemma Generated(db: Db, user: nat)
    requires InOrder(db)
    ensures InOrder(SiteOrders.GeneratePublishOrder(db, user).db)
  {
    hide InOrder;
    Untouched(db, SiteOrders.GeneratePublishOrder(db, user).db);
  }

  /** Starting again from the certificate keeps the links, the other two restarts do not have or drop them. */
  lemma RetriedIff(db: Db, user: nat, p: int)
    requires InOrder(db)
    ensures var r := PostOrders.RetryPost(db, user, p);
            r.Retried? ==>
              (AllLinksSubmitted(r.db.posts) <==> (db.posts[p].certificate == Failed ==> !HasLinks(db.posts[p]))) &&
              (AllLinksSubmitted(r.db.posts) ==> InOrder(r.db))
  {
    var r := PostOrders.RetryPost(db, user, p);
    if r.Retried? {
      assert LinksSubmitted(db.posts[p]) && OnBatch(db.posts[p]);
      OnePost(db, p, r.db.posts[p]);
    }
  }

  /** The submission of one post fails, by a report or by the loss of its certificate. */
  lemma SubmissionFailsIff(db: Db, p: int)
    requires InOrder(db) && 0 <= p < |db.posts|
    ensures AllLinksSubmitted(PostOrders.FailSubmit(db, p).posts) <==> !HasLinks(db.posts[p])
    ensures AllLinksSubmitted(PostOrders.LoseCertificate(db, p).posts) <==> !HasLinks(db.posts[p])
    ensures !HasLinks(db.posts[p]) ==> InOrder(PostOrders.FailSubmit(db, p)) && InOrder(PostOrders.LoseCertificate(db, p))
  {
    OnePost(db, p, PostOrders.FailSubmit(db, p).posts[p]);
    OnePost(db, p, PostOrders.LoseCertificate(db, p).posts[p]);
    hide InOrder, AllLinksSubmitted;
  }

  lemma CertificateMoves(db: Db, p: int)
    requires InOrder(db) && 0 <= p < |db.posts|
    ensures InOrder(PostOrders.BeginCertificate(db, p)) && InOrder(PostOrders.StoreCertificate(db, p))
  {
    assert LinksSubmitted(db.posts[p]) && OnBatch(db.posts[p]);
    OnePost(db, p, PostOrders.BeginCertificate(db, p).posts[p]);
    OnePost(db, p, PostOrders.StoreCertificate(db, p).posts[p]);
    hide InOrder, AllLinksSubmitted;
  }

  /** Every row stays in order by itself. */
  lemma Rows(a: Db, b: Db)
    requires InOrder(a) && |b.posts| == |a.posts| && b.retries <= a.retries && b.repoints <= a.repoints
    requires forall i :: 0 <= i < |a.posts| && LinksSubmitted(a.posts[i]) && OnBatch(a.posts[i]) ==>
      LinksSubmitted(b.posts[i]) && OnBatch(b.posts[i])
    ensures InOrder(b)
  {
  }

  lemma Stamped(db: Db, site: nat, user: nat, t: nat)
    requires InOrder(db)
    ensures InOrder(SiteOrders.StampPublishTask(db, site, user, t))
  {
    hide InOrder;
    Rows(db, SiteOrders.StampPublishTask(db, site, user, t));
  }

  lemma Linked(db: Db, site: nat, user: nat)
    requires InOrder(db)
    ensures InOrder(SiteTasks.LinkOrGenerate(db, site, user))
  {
    var t := LatestTaskOf(db.publishTasks, site, user);
    hide InOrder;
    if t != NONE && db.publishTasks[t].state == Pending {
      Stamped(db, site, user, t);
    } else {
      var tasked := db.(publishTasks := db.publishTasks + [PublishTask(user, site, Pending)]);
      Untouched(db, tasked);
      Stamped(tasked, site, user, |db.publishTasks|);
    }
  }

  lemma RetryBegun(db: Db, e: RetryEvent)
    requires InOrder(db) && e in db.retries
    ensures InOrder(SiteOrders.BeginRetry(db, e))
  {
    var taken := db.(retries := db.retries - multiset{e});
    var g := SiteOrders.GeneratePublishOrder(taken, e.user);
    assert g.db.posts == db.posts && g.db.retries == taken.retries && g.db.repoints == db.repoints;
  }

  lemma RepointedIff(db: Db, r: Repoint)
    requires InOrder(db) && r in db.repoints
    ensures AllLinksSubmitted(SiteOrders.EndRetry(db, r).posts) <==> BatchSubmitted(db.posts, r.postTask)
    ensures BatchSubmitted(db.posts, r.postTask) ==> InOrder(SiteOrders.EndRetry(db, r))
  {
    var db' := SiteOrders.EndRetry(db, r);
    assert r.postTask != NONE;
    forall i | 0 <= i < |db.posts|
      ensures LinksSubmitted(db'.posts[i]) <==> (db.posts[i].postTask == r.postTask ==> db.posts[i].submit == Finished)
      ensures OnBatch(db'.posts[i])
    {
      assert LinksSubmitted(db.posts[i]) && OnBatch(db.posts[i]);
    }
  }

  lemma Swept(db: Db, user: nat)
    requires InOrder(db)
    ensures InOrder(PostTasks.Generate(db, user))
  {
    hide InOrder;
    Rows(db, PostTasks.Generate(db, user));
  }

  /** Before its task is FINISHED no post of a batch is submitted, so none has links. */
  lemma BatchUnlinked(db: Db, t: int)
    requires InOrder(db) && PostInv(db.publishOrders, db.publishTasks, db.posts, db.postTasks)
    requires 0 <= t < |db.postTasks| && db.postTasks[t].state != Finished
    ensures forall i :: 0 <= i < |db.posts| && db.posts[i].postTask == t ==>
      db.posts[i].submit != Finished && !HasLinks(db.posts[i]) && db.posts[i].publish !in {Doing, Finished}
  {
    forall i | 0 <= i < |db.posts| && db.posts[i].postTask == t
      ensures db.posts[i].submit != Finished && LinksSubmitted(db.posts[i])
    {
      assert PostOk(db.publishOrders, db.publishTasks, db.postTasks, db.posts[i]);
    }
  }

  lemma PostTaskMoves(db: Db, t: int, order: int)
    requires InOrder(db) && PostInv(db.publishOrders, db.publishTasks, db.posts, db.postTasks)
    requires 0 <= t < |db.postTasks| && db.postTasks[t].state != Finished
    ensures InOrder(PostTasks.DoingTask(db, t)) && InOrder(PostTasks.FinishTask(db, t, order))
    ensures InOrder(PostTasks.FailTask(db, t))
  {
    BatchUnlinked(db, t);
    hide InOrder, PostInv;
    Rows(db, PostTasks.DoingTask(db, t));
    Rows(db, PostTasks.FinishTask(db, t, order));
    Rows(db, PostTasks.FailTask(db, t));
  }

  lemma PublishMoves(db: Db, t: int, state: TaskState, status: SiteStatus)
    requires InOrder(db)
    ensures InOrder(SiteTasks.MovePublish(db, t, state, status))
  {
    hide InOrder;
    if 0 <= t < |db.publishTasks| {
      Rows(db, SiteTasks.MovePublish(db, t, state, status));
    }
  }

  lemma DeployMoves(db: Db, d: int, site: nat, user: nat, state: TaskState, status: SiteStatus)
    requires InOrder(db)
    ensures 0 <= d < |db.deployOrders| ==> InOrder(SiteTasks.StartDeploy(db, d, site, user))
    ensures InOrder(SiteTasks.CloseDeploy(db, d, state, status))
  {
    hide InOrder;
    if 0 <= d < |db.deployOrders| { Untouched(db, SiteTasks.StartDeploy(db, d, site, user)); }
    Untouched(db, SiteTasks.CloseDeploy(db, d, state, status));
  }

  lemma FailInOrder(db: Db, j: Job)
    requires InOrder(db) && PostInv(db.publishOrders, db.publishTasks, db.posts, db.postTasks) && TaskDoing(db, j)
    ensures InOrder(FailTask(db, j))
  {
    hide InOrder, PostInv;
    match j.kind
    case DeployJob => DeployMoves(db, j.task, 0, 0, Failed, DeployFailed);
    case PostJob => PostTaskMoves(db, j.task, 0);
    case PublishJob => PublishMoves(db, j.task, Failed, PublishFailed);
  }

  // ---- steps ----

  lemma PostRows(s: State)
    requires Inv(s)
    ensures PostInv(s.db.publishOrders, s.db.publishTasks, s.db.posts, s.db.postTasks)
  {
  }

  lemma OutsideIff(s: State, a: OutsideAction)
    requires InOrder(s.db) && OutsideEnabled(s, a)
    ensures AllLinksSubmitted(OutsideNext(s, a).db.posts) <==> Harmless(s, Outside(a))
    ensures Harmless(s, Outside(a)) ==> InOrder(OutsideNext(s, a).db)
  {
    hide AllLinksSubmitted, AllOnBatch, EventsOnBatch, SiteOrders.SaveDeployOrder, SiteOrders.GeneratePublishOrder,
         SiteTasks.LinkOrGenerate, SiteOrders.EndRetry, SiteOrders.BeginRetry, PostOrders.SavePost, BatchSubmitted,
         PostOrders.BeginCertificate, PostOrders.StoreCertificate, PostOrders.LoseCertificate;
    match a
    case ATick => Untouched(s.db, OutsideNext(s, a).db);
    case ACreateSite(_) => Untouched(s.db, OutsideNext(s, a).db);
    case ASavePost(user) => NewPost(s.db, user, Pending, Pending);
    case ARequestDeploy(user, site) => DeploySaved(s.db, user, site);
    case ARequestPublish(user) => Generated(s.db, user);
    case ARetry(user, p) => RetriedIff(s.db, user, p);
    case ABeginCertificate(p) => CertificateMoves(s.db, p);
    case AStoreCertificate(p) => CertificateMoves(s.db, p);
    case ALoseCertificate(p) => SubmissionFailsIff(s.db, p);
    case ADeliverLink(e) =>
      var taken := s.db.(links := s.db.links - multiset{e});
      Untouched(s.db, taken);
      Linked(taken, e.site, e.user);
    case ABeginRetry(e) => RetryBegun(s.db, e);
    case AEndRetry(r) => RepointedIff(s.db, r);
  }

  lemma DispatcherInOrder(s: State, a: DispatcherAction)
    requires Inv(s) && InOrder(s.db) && DispatcherEnabled(s, a)
    ensures InOrder(DispatcherNext(s, a).db)
  {
    hide Inv, InOrder, PostInv, DispatcherNext, FailTask, PostTasks.Generate, PostTasks.DoingTask, SiteTasks.StartDeploy,
         SiteTasks.LinkOrGenerate, SiteTasks.MovePublish, FirstDeploy, FirstPublish, FirstPost, TaskDoing;
    DispatcherDb(s, a);
    PostRows(s);
    match a
    case AStartDeploy =>
      var o := s.db.deployOrders[s.phase.choice.d];
      DeployMoves(s.db, s.phase.choice.d, o.site, o.user, Failed, DeployFailed);
    case ASweep => Swept(s.db, s.db.posts[s.phase.choice.p].user);
    case AMarkPosts => SweptPending(s); PostTaskMoves(s.db, s.phase.postTask, 0);
    case ALinkForPublish =>
      var o := s.db.publishOrders[s.phase.choice.o];
      Linked(s.db, o.site, o.user);
    case AMarkPublish => PublishMoves(s.db, s.db.publishOrders[s.phase.order].task, Doing, Publishing);
    case AAbandon => StepKeeps.InFlight(s, s.phase.job); FailInOrder(s.db, s.phase.job);
    case _ =>
  }

  lemma SweptPending(s: State)
    requires Inv(s) && s.phase.Swept?
    ensures 0 <= s.phase.postTask < |s.db.postTasks| && s.db.postTasks[s.phase.postTask].state == Pending
  {
  }

  lemma WorkerIff(s: State, a: WorkerAction)
    requires Inv(s) && InOrder(s.db) && WorkerEnabled(s, a)
    ensures AllLinksSubmitted(WorkerNext(s, a).db.posts) <==> Harmless(s, Worker(a))
    ensures Harmless(s, Worker(a)) ==> InOrder(WorkerNext(s, a).db)
  {
    hide Inv, AllLinksSubmitted, AllOnBatch, EventsOnBatch, PostInv, WorkerNext, FailTask, PostTasks.FinishTask,
         SiteTasks.CloseDeploy, SiteTasks.MovePublish, SiteOrders.GeneratePublishOrder, PostOrders.FailSubmit, TaskDoing;
    WorkerDb(s, a);
    PostRows(s);
    match a
    case AStartJob(_) =>
    case AReport(_, p) => SubmissionFailsIff(s.db, p);
    case ACompleteDeploy(t) => DeployMoves(s.db, t, 0, 0, Finished, Deployed);
    case AOrderFirstPublish(t) => Generated(s.db, s.db.deployTasks[t].user);
    case ACompletePosts(t) => Generated(s.db, s.db.postTasks[t].user);
    case AFinishPosts(t) => RunningTask(s, t); PostTaskMoves(s.db, t, s.closing[t]);
    case ACompletePublish(t) => PublishMoves(s.db, t, Finished, Published);
    case AFailJob(j) => StepKeeps.InFlight(s, j); FailInOrder(s.db, j);
  }

  lemma RunningTask(s: State, t: int)
    requires Inv(s) && (t in s.closing || Job(PostJob, t) in s.active)
    ensures 0 <= t < |s.db.postTasks| && s.db.postTasks[t].state == Doing
  {
    hide DbInv, ClosingOk, PhaseOk, WipOk;
    StepKeeps.InFlight(s, Job(PostJob, t));
  }

  /** Each of the four guards holds exactly when the step keeps publish links and publish states behind
      the submission; every other step keeps them. */
  lemma HarmlessIff(s: State, a: Action)
    requires Inv(s) && InOrder(s.db) && Enabled(s, a)
    ensures AllLinksSubmitted(Next(s, a).db.posts) <==> Harmless(s, a)
    ensures InOrder(Next(s, a).db) <==> Harmless(s, a)
  {
    hide Inv, AllLinksSubmitted, AllOnBatch, EventsOnBatch, Harmless, OutsideEnabled, OutsideNext, DispatcherEnabled,
         DispatcherNext, WorkerEnabled, WorkerNext;
    match a
    case Outside(o) => OutsideIff(s, o);
    case Dispatcher(d) => DispatcherInOrder(s, d); DispatcherIsHarmless(s, d);
    case Worker(w) => WorkerIff(s, w);
  }

  lemma DispatcherIsHarmless(s: State, a: DispatcherAction)
    ensures Harmless(s, Dispatcher(a))
  {
  }

  lemma {:induction false} RunInOrder(s: State, actions: seq<Action>)
    requires Inv(s) && InOrder(s.db) && IsRun(s, actions) && Within(s, actions, Harmless)
    ensures InOrder(After(s, actions).db)
    decreases |actions|
  {
    if actions != [] {
      hide Inv, InOrder, Enabled, Next, Harmless;
      StepInv(s, actions[0]);
      HarmlessIff(s, actions[0]);
      RunInOrder(Next(s, actions[0]), actions[1..]);
    }
  }

  lemma EmptyInOrder()
    ensures InOrder(EmptyDb)
  {
  }

  lemma InOrderMeans(db: Db)
    requires InOrder(db)
    ensures forall p :: p in db.posts ==> (HasLinks(p) || p.publish in {Doing, Finished} ==> p.submit == Finished)
  {
    forall p | p in db.posts ensures LinksSubmitted(p) { }
  }

  /** In a run from the empty tables whose steps keep to the guards, a post that points at a publish order,
      carries a publish task, is being published or is published has been submitted, however often
      submissions, certificates and publishes failed and were retried. */
  lemma PublishNeverOvertakes(wipLimit: nat, concurrency: nat, actions: seq<Action>)
    requires IsRun(Start(wipLimit, concurrency), actions)
    requires Within(Start(wipLimit, concurrency), actions, Harmless)
    ensures forall p :: p in After(Start(wipLimit, concurrency), actions).db.posts ==>
      (HasLinks(p) || p.publish in {Doing, Finished} ==> p.submit == Finished)
  {
    hide Inv, InOrder, IsRun, After, Within, Harmless, LinksSubmitted;
    StartInv(wipLimit, concurrency);
    EmptyInOrder();
    RunInOrder(Start(wipLimit, concurrency), actions);
    InOrderMeans(After(Start(wipLimit, concurrency), actions).db);
  }

  /** A report of a job on one of its own posts is harmless: while the job runs, none of its posts can
      have publish links. */
  lemma OwnReportIsHarmless(s: State, t: int, p: int)
    requires Inv(s) && InOrder(s.db) && WorkerEnabled(s, AReport(t, p)) && s.db.posts[p].postTask == t
    ensures Harmless(s, Worker(AReport(t, p)))
  {
    RunningTask(s, t);
    PostRows(s);
    hide Inv, PostInv, InOrder;
    BatchUnlinked(s.db, t);
  }

  /** A certificate that is lost before its post's batch is submitted does no harm either, nor does the
      retry that follows. */
  lemma EarlyLossIsHarmless(s: State, p: int)
    requires InOrder(s.db) && 0 <= p < |s.db.posts| && s.db.posts[p].submit != Finished
    ensures Harmless(s, Outside(ALoseCertificate(p)))
    ensures InOrder(PostOrders.LoseCertificate(s.db, p))
    ensures Harmless(s.(db := PostOrders.LoseCertificate(s.db, p)), Outside(ARetry(s.db.posts[p].user, p)))
  {
    assert LinksSubmitted(s.db.posts[p]);
    SubmissionFailsIff(s.db, p);
  }
}

/** The dispatcher service: dispatchNextTask and the handling of finished, failed and reporting jobs. */
module DispatcherService {
  import opened PipelineTypes
  import opened Store
  import opened LogicServices
  import opened Pipeline
  import opened Invariants
  import opened Runs
  import opened OldestFirst
  import opened DispatchEffects
  import SiteTasks

  class WorkerTasksDispatcher {
    const db: Database
    const siteTasks: SiteTasksService
    const wipLimit: nat
    const concurrency: nat
    var waiting: multiset<Job>
    var active: multiset<Job>
    var closing: map<int, int>
    var deployed: set<int>
    ghost var phase: Phase

    ghost function State(): Pipeline.State
      reads this, db
    {
      Pipeline.State(db.State(), wipLimit, concurrency, waiting, active, closing, deployed, phase)
    }

    predicate Wired() {
      siteTasks.db == db && siteTasks.Wired()
    }

    constructor (siteTasks: SiteTasksService, wipLimit: nat, concurrency: nat)
      requires siteTasks.Wired() && siteTasks.db.State() == EmptyDb
      ensures Wired() && this.siteTasks == siteTasks && State() == Start(wipLimit, concurrency)
    {
      db := siteTasks.db;
      this.siteTasks := siteTasks;
      this.wipLimit := wipLimit;
      this.concurrency := concurrency;
      waiting, active := multiset{}, multiset{};
      closing, deployed := map[], {};
      phase := Idle;
    }

    /** isTaskCountLessThanWipLimit */
    predicate IsTaskCountLessThanWipLimit(activeCount: nat, waitingCount: nat) {
      activeCount + waitingCount < wipLimit
    }

    /** The comparison of dispatchOldestOrder. */
    method ChooseOldest(d: int, o: int, p: int) returns (choice: Choice)
      requires NONE <= d < |db.deployOrders| && NONE <= o < |db.publishOrders| && NONE <= p < |db.posts|
      ensures choice == Oldest(db.State(), d, o, p)
    {
      var least := NONE;
      if p != NONE {
        least := db.posts[p].createdAt;
      }
      if o != NONE && (least == NONE || db.publishOrders[o].createdAt <= least) {
        least := db.publishOrders[o].createdAt;
      }
      if d != NONE && (least == NONE || db.deployOrders[d].createdAt <= least) {
        least := db.deployOrders[d].createdAt;
      }
      if d != NONE && db.deployOrders[d].createdAt == least {
        return Deploy(d);
      }
      if o != NONE && db.publishOrders[o].createdAt == least {
        return Publish(o);
      }
      if p != NONE && db.posts[p].user != 0 && db.posts[p].createdAt == least {
        return Submit(p);
      }
      return NoOrder;
    }

    /** A failed deployment starts over. */
    method ReviveDeploySite(d: int, site: nat)
      requires 0 <= d < |db.deployOrders| && site < |db.sites|
      modifies db
      ensures db.State() == SiteTasks.ReviveDeploy(old(db.State()), d, site)
    {
      if db.sites[site].status == DeployFailed {
        db.deployOrders := db.deployOrders[d := db.deployOrders[d].(state := Pending)];
        db.UpdateSiteConfigStatus(site, Configured);
      }
    }

    /** dispatchDeploySiteTask up to the marking. */
    method StartDeployTask(order: int) returns (id: int)
      requires Wired() && 0 <= order < |db.deployOrders| && phase == Chosen(Deploy(order))
      modifies this, db
      ensures State() == StartDeploy(old(State()))
      ensures phase == if id != NONE then Marked(Job(DeployJob, id)) else Idle
    {
      var o := db.deployOrders[order];
      var d := db.GetDeployOrder(o.site, o.user);
      if o.site >= |db.sites| || d == NONE {
        phase := Idle;
        return NONE;
      }
      ReviveDeploySite(d, o.site);
      if db.sites[o.site].status != Configured {
        phase := Idle;
        return NONE;
      }
      id := siteTasks.StartDeploySiteTask(d, o.site, o.user);
      phase := Marked(Job(DeployJob, id));
    }

    /** dispatchCreatePostsTask: status check and sweep. */
    method SweepPosts(p: int) returns (id: int)
      requires Wired() && 0 <= p < |db.posts| && phase == Chosen(Submit(p))
      modifies this, db
      ensures State() == Sweep(old(State()))
      ensures phase == if id != NONE then Swept(id) else Idle
    {
      var user := db.posts[p].user;
      var site := db.GetUserDefaultSite(user);
      if site == NONE || !Settled(db.sites[site].status) {
        phase := Idle;
        return NONE;
      }
      id := siteTasks.siteOrders.postTasks.GenerateUserPostTaskForPendingPosts(user);
      phase := Swept(id);
    }

    method MarkPostTask(id: int)
      requires Wired() && phase == Swept(id)
      modifies this, db
      ensures State() == MarkPosts(old(State())) && phase == Marked(Job(PostJob, id))
    {
      siteTasks.siteOrders.postTasks.DoingPostTask(id);
      phase := Marked(Job(PostJob, id));
    }

    /** dispatchPublishSiteTask: status check and link. */
    method LinkPublish(o: int) returns (linked: bool)
      requires Wired() && 0 <= o < |db.publishOrders| && phase == Chosen(Publish(o))
      modifies this, db
      ensures State() == LinkForPublish(old(State()))
      ensures phase == if linked then Linked(o) else Idle
      ensures |db.publishOrders| == |old(db.publishOrders)|
    {
      var order := db.publishOrders[o];
      if order.site >= |db.sites| || !Settled(db.sites[order.site].status) {
        phase := Idle;
        return false;
      }
      siteTasks.LinkOrGeneratePublishSiteTask(order.site, order.user);
      phase := Linked(o);
      return true;
    }

    method MarkPublishTask(o: int) returns (id: int)
      requires Wired() && 0 <= o < |db.publishOrders| && phase == Linked(o)
      modifies this, db
      ensures State() == MarkPublish(old(State()))
      ensures phase == if id != NONE then Marked(Job(PublishJob, id)) else Idle
    {
      var order := db.publishOrders[o];
      id := db.GetPendingTask(order.site, order.user);
      if id == NONE {
        phase := Idle;
        return;
      }
      siteTasks.MovePublishSiteTask(id, Doing, Publishing);
      phase := Marked(Job(PublishJob, id));
    }

    /** dispatchTask, or the handling of a failure to build the configuration. */
    method DispatchTask(j: Job, configFails: bool)
      requires Wired() && phase == Marked(j)
      modifies this, db
      ensures State() == (if configFails then Abandon(old(State())) else Enqueue(old(State()))) && phase == Idle
    {
      if configFails {
        FailMarked(j);
      } else {
        waiting := waiting + multiset{j};
      }
      phase := Idle;
    }

    method FailMarked(j: Job)
      requires Wired()
      modifies db
      ensures db.State() == Pipeline.FailTask(old(db.State()), j)
    {
      match j.kind
      case DeployJob => siteTasks.CloseDeploySiteTask(j.task, Failed, DeployFailed);
      case PostJob => siteTasks.siteOrders.postTasks.FailPostTask(j.task);
      case PublishJob => siteTasks.MovePublishSiteTask(j.task, Failed, PublishFailed);
    }

    // ---- the job queue ----

    /** finishTask of a deploy job, up to generatePublishSiteOrder. */
    method FinishDeployJob(t: int)
      requires Wired() && Job(DeployJob, t) in active
      modifies this, db
      ensures State() == CompleteDeploy(old(State()), t)
    {
      active := active - multiset{Job(DeployJob, t)};
      siteTasks.CloseDeploySiteTask(t, Finished, Deployed);
      deployed := deployed + {t};
    }

    method OrderFirstPublish(t: int)
      requires Wired() && t in deployed && 0 <= t < |db.deployTasks|
      modifies this, db
      ensures State() == Pipeline.OrderFirstPublish(old(State()), t)
    {
      var order := siteTasks.siteOrders.GeneratePublishSiteOrder(db.deployTasks[t].user);
      deployed := deployed - {t};
    }

    /** finishTask of a post job, up to finishPostTask. */
    method FinishPostJob(t: int)
      requires Wired() && Job(PostJob, t) in active && 0 <= t < |db.postTasks|
      modifies this, db
      ensures State() == CompletePosts(old(State()), t)
    {
      active := active - multiset{Job(PostJob, t)};
      var order := siteTasks.siteOrders.GeneratePublishSiteOrder(db.postTasks[t].user);
      if order != NONE {
        closing := closing[t := order];
      }
    }

    method FinishPostTask(t: int)
      requires Wired() && t in closing
      modifies this, db
      ensures State() == FinishPosts(old(State()), t)
    {
      siteTasks.siteOrders.postTasks.FinishPostTask(t, closing[t]);
      closing := closing - {t};
    }

    method FinishPublishJob(t: int)
      requires Wired() && Job(PublishJob, t) in active
      modifies this, db
      ensures State() == CompletePublish(old(State()), t)
    {
      active := active - multiset{Job(PublishJob, t)};
      siteTasks.MovePublishSiteTask(t, Finished, Published);
    }

    method FailTask(j: Job)
      requires Wired() && j in active
      modifies this, db
      ensures State() == FailJob(old(State()), j)
    {
      active := active - multiset{j};
      FailMarked(j);
    }

    /** An ERRORED report of a post job. */
    method Report(t: int, p: int)
      requires Wired() && Job(PostJob, t) in active && 0 <= p < |db.posts|
      modifies this, db
      ensures State() == WorkerNext(old(State()), AReport(t, p))
    {
      siteTasks.postOrders.FailSubmitPost(p);
    }

    // ---- one dispatch ----

    /** On any tables in which the order is the one found for its site it starts if the site is Configured or
        DeployFailed, and nothing changes otherwise; in a reachable state a chosen order always starts. */
    method DispatchDeploySiteTask(order: int, configFails: bool) returns (ghost run: seq<Action>)
      requires Wired() && 0 <= order < |db.deployOrders| && phase == Chosen(Deploy(order))
      modifies this, db
      ensures phase == Idle && DispatcherRun(old(State()), run) && After(old(State()), run) == State()
      ensures old(OnlyOrder(db.State(), order)) ==>
        if old(db.sites[db.deployOrders[order].site].status) in {Configured, DeployFailed}
        then DeployStarts(old(State()), State(), order, configFails) else State() == old(State()).(phase := Idle)
      ensures Inv(old(State())) ==> DeployStarts(old(State()), State(), order, configFails)
    {
      hide DispatcherRun, StartDeploy, Abandon, Enqueue, DeployStarts, OnlyOrder, Inv;
      ghost var s := State();
      if OnlyOrder(s.db, order) { DeployDispatch(s, order); }
      if Inv(s) { ChosenDeploy(s, order); DeployDispatch(s, order); }
      run := First(s, AStartDeploy);
      var id := StartDeployTask(order);
      if id != NONE {
        run := Step(s, run, if configFails then AAbandon else AEnqueue);
        DispatchTask(Job(DeployJob, id), configFails);
      }
    }

    /** In a reachable state all posts of the user that wait start, or fail when there is no configuration, if
        the newest site of the user is settled; nothing changes otherwise. */
    method DispatchCreatePostsTask(p: int, configFails: bool) returns (ghost run: seq<Action>)
      requires Wired() && 0 <= p < |db.posts| && phase == Chosen(Submit(p))
      modifies this, db
      ensures phase == Idle && DispatcherRun(old(State()), run) && After(old(State()), run) == State()
      ensures Inv(old(State())) ==> Dispatched(old(State()), State(), Submit(p), configFails)
    {
      hide DispatcherRun, Sweep, MarkPosts, Abandon, Enqueue, PostsStart, Inv;
      ghost var s := State();
      if Inv(s) { PostsDispatch(s, p); }
      run := First(s, ASweep);
      var id := SweepPosts(p);
      if id != NONE {
        run := Step(s, run, AMarkPosts);
        MarkPostTask(id);
        run := Step(s, run, if configFails then AAbandon else AEnqueue);
        DispatchTask(Job(PostJob, id), configFails);
      }
    }

    /** In a reachable state the next publish of the order's pair starts, or fails when there is no
        configuration. */
    method DispatchPublishSiteTask(o: int, configFails: bool) returns (ghost run: seq<Action>)
      requires Wired() && 0 <= o < |db.publishOrders| && phase == Chosen(Publish(o))
      modifies this, db
      ensures phase == Idle && DispatcherRun(old(State()), run) && After(old(State()), run) == State()
      ensures Inv(old(State())) ==> PublishStarts(old(State()), State(), o, configFails)
    {
      hide DispatcherRun, LinkForPublish, MarkPublish, Abandon, Enqueue, PublishStarts, Inv;
      ghost var s := State();
      if Inv(s) { PublishDispatch(s, o); }
      run := First(s, ALinkForPublish);
      var linked := LinkPublish(o);
      if linked {
        run := Step(s, run, AMarkPublish);
        var id := MarkPublishTask(o);
        if id != NONE {
          run := Step(s, run, if configFails then AAbandon else AEnqueue);
          DispatchTask(Job(PublishJob, id), configFails);
        }
      }
    }

    /** The reading of the counts. */
    method ReadCounts() returns (ghost run: seq<Action>)
      requires phase == Idle
      modifies this`phase
      ensures DispatcherRun(old(State()), run) && After(old(State()), run) == State()
      ensures State() == old(State()).(phase := if |active| + |waiting| < wipLimit then Permitted else Idle)
    {
      hide DispatcherRun;
      ghost var s := State();
      var activeCount := |active|;
      run := First(s, AReadActive);
      phase := ActiveRead(activeCount);
      var waitingCount := |waiting|;
      run := Step(s, run, AReadWaiting);
      phase := if IsTaskCountLessThanWipLimit(activeCount, waitingCount) then Permitted else Idle;
    }

    /** The three selections and the choice among them. */
    method SelectOldest() returns (choice: Choice, ghost run: seq<Action>)
      requires phase == Permitted
      modifies this`phase
      ensures DispatcherRun(old(State()), run) && After(old(State()), run) == State()
      ensures State() == old(State()).(phase := if choice == NoOrder then Idle else Chosen(choice))
      ensures IsOldest(db.State(), choice)
      ensures match choice
              case NoOrder => true
              case Deploy(d) => 0 <= d < |db.deployOrders|
              case Publish(o) => 0 <= o < |db.publishOrders|
              case Submit(p) => 0 <= p < |db.posts|
    {
      hide DispatcherRun, FirstDeploy, FirstPublish, FirstPost, Oldest, IsOldest;
      ghost var s := State();
      var d := db.GetFirstPendingDeploySiteOrder();
      InRange(db.State(), d, NONE, NONE);
      run := First(s, APickDeploy(d));
      phase := DeployPicked(d);
      var o := db.GetFirstPendingPublishSiteOrder();
      InRange(db.State(), NONE, o, NONE);
      run := Step(s, run, APickPublish(o));
      phase := PublishPicked(d, o);
      var p := db.GetFirstPendingPostOrder();
      InRange(db.State(), NONE, NONE, p);
      run := Step(s, run, APickPost(p));
      choice := ChooseOldest(d, o, p);
      OldestInRange(db.State(), d, o, p);
      OldestIsChosen(db.State(), d, o, p);
      phase := if choice == NoOrder then Idle else Chosen(choice);
    }

    /** dispatchOldestOrder: the dispatch of the chosen order. */
    method DispatchOldestOrder(choice: Choice, configFails: bool) returns (ghost run: seq<Action>)
      requires Wired() && phase == (if choice == NoOrder then Idle else Chosen(choice))
      requires match choice
               case NoOrder => true
               case Deploy(d) => 0 <= d < |db.deployOrders|
               case Publish(o) => 0 <= o < |db.publishOrders|
               case Submit(p) => 0 <= p < |db.posts|
      modifies this, db
      ensures phase == Idle && DispatcherRun(old(State()), run) && After(old(State()), run) == State()
      ensures Inv(old(State())) ==> Dispatched(old(State()), State(), choice, configFails)
    {
      hide Inv, DeployStarts, PublishStarts, PostsStart;
      match choice
      case NoOrder =>
        run := [];
        NoStep(State());
      case Deploy(d) => run := DispatchDeploySiteTask(d, configFails);
      case Publish(o) => run := DispatchPublishSiteTask(o, configFails);
      case Submit(p) => run := DispatchCreatePostsTask(p, configFails);
    }

    /** dispatchNextTask without interruption, in a reachable state: below the limit the oldest eligible order
        starts, or fails at once when its configuration cannot be built; otherwise nothing changes. It is a
        run of the dispatcher's steps that ends idle. */
    method DispatchNextTask(configFails: bool) returns (ghost choice: Choice, ghost run: seq<Action>)
      requires Wired() && phase == Idle
      modifies this, db
      ensures phase == Idle
      ensures DispatcherRun(old(State()), run) && After(old(State()), run) == State()
      ensures Inv(old(State())) ==>
        Inv(State()) &&
        if old(|active| + |waiting|) < wipLimit
        then IsOldest(old(db.State()), choice) && Dispatched(old(State()), State(), choice, configFails)
        else State() == old(State())
    {
      hide DispatcherRun, Inv, IsOldest, Dispatched;
      ghost var s := State();
      run := ReadCounts();
      choice := NoOrder;
      if IsTaskCountLessThanWipLimit(|active|, |waiting|) {
        var chosen;
        ghost var more;
        chosen, more := SelectOldest();
        choice := chosen;
        Concat(s, run, more);
        run := run + more;
        ghost var t := State();
        more := DispatchOldestOrder(chosen, configFails);
        if Inv(s) {
          DispatcherRunInv(s, run);
          AnyPhase(s, State(), t.phase, choice, configFails);
        }
        Concat(s, run, more);
        run := run + more;
      }
      if Inv(s) { DispatcherRunInv(s, run); }
    }
  }

  lemma DispatcherRunInv(s: Pipeline.State, run: seq<Action>)
    requires Inv(s) && DispatcherRun(s, run)
    ensures Inv(After(s, run))
  {
    hide Inv;
    RunInv(s, run);
  }

  lemma Concat(s: Pipeline.State, run: seq<Action>, more: seq<Action>)
    requires DispatcherRun(s, run) && DispatcherRun(After(s, run), more)
    ensures DispatcherRun(s, run + more) && After(s, run + more) == After(After(s, run), more)
  {
    hide IsRun, After;
    RunAppend(s, run, more);
  }

  /** A run in which only the dispatcher acts. */
  ghost predicate DispatcherRun(s: Pipeline.State, run: seq<Action>) {
    IsRun(s, run) && forall i :: 0 <= i < |run| ==> run[i].Dispatcher?
  }

  lemma OldestInRange(db: Db, d: int, o: int, p: int)
    requires NONE <= d < |db.deployOrders| && NONE <= o < |db.publishOrders| && NONE <= p < |db.posts|
    ensures match Oldest(db, d, o, p)
            case NoOrder => true
            case Deploy(x) => 0 <= x < |db.deployOrders|
            case Publish(x) => 0 <= x < |db.publishOrders|
            case Submit(x) => 0 <= x < |db.posts|
  {
  }

  /** The run that starts with the step. */
  lemma First(s: Pipeline.State, a: DispatcherAction) returns (run: seq<Action>)
    requires DispatcherEnabled(s, a)
    ensures DispatcherRun(s, run) && After(s, run) == DispatcherNext(s, a)
  {
    NoStep(s);
    run := Step(s, [], a);
  }

  /** The run so far with the step that comes next. */
  lemma Step(s: Pipeline.State, run: seq<Action>, a: DispatcherAction) returns (next: seq<Action>)
    requires DispatcherRun(s, run) && DispatcherEnabled(After(s, run), a)
    ensures DispatcherRun(s, next) && After(s, next) == DispatcherNext(After(s, run), a)
  {
    next := run + [Dispatcher(a)];
    hide DispatcherEnabled, DispatcherNext, IsRun, After;
    RunSnoc(s, run, Dispatcher(a));
  }
}

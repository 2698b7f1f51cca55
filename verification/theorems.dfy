/** What holds in every reachable state. */
module Theorems {
  import opened PipelineTypes
  import opened Tables
  import opened Pipeline
  import opened Invariants
  import opened Runs
  import StepKeeps
  import Wip

  /** A running or finished order has a running or finished task of its user; a publish order on a
      task that has left PENDING has the task's state, one on a PENDING task waits or has failed. */
  lemma OrderTaskAgreement(s: State)
    requires Reachable(s)
    ensures forall p :: p in s.db.posts && p.submit == Doing ==>
      0 <= p.postTask < |s.db.postTasks| &&
      s.db.postTasks[p.postTask].state == Doing && s.db.postTasks[p.postTask].user == p.user
    ensures forall p :: p in s.db.posts && p.submit == Finished && p.postTask != NONE ==>
      0 <= p.postTask < |s.db.postTasks| && s.db.postTasks[p.postTask].state == Finished
    ensures forall p :: p in s.db.posts && p.publish in {Doing, Finished} && (p.publish == Doing || p.publishTask != NONE) ==>
      0 <= p.publishTask < |s.db.publishTasks| && s.db.publishTasks[p.publishTask].state == p.publish
    ensures forall o :: o in s.db.publishOrders && o.task != NONE ==>
      0 <= o.task < |s.db.publishTasks| &&
      var t := s.db.publishTasks[o.task];
      t.site == o.site && t.user == o.user &&
      if t.state == Pending then o.state in {Pending, Failed} else o.state == t.state
    ensures forall o :: o in s.db.publishOrders && o.task == NONE ==> o.state == Pending
    ensures forall o :: o in s.db.deployOrders && o.state in {Doing, Finished, Failed} ==>
      0 <= o.task < |s.db.deployTasks| &&
      s.db.deployTasks[o.task].state == o.state && s.db.deployTasks[o.task].site == o.site
  {
    ReachableInv(s);
    forall p | p in s.db.posts ensures PostOk(s.db.publishOrders, s.db.publishTasks, s.db.postTasks, p) { }
    forall o | o in s.db.publishOrders
      ensures Link(o.task, |s.db.publishTasks|) && PublishOrderAgrees(s.db.publishTasks, o) &&
              o.site < |s.db.sites| && s.db.sites[o.site].user == o.user { }
    forall o | o in s.db.deployOrders
      ensures Link(o.task, |s.db.deployTasks|) && o.site < |s.db.sites| &&
              DeployOrderAgrees(s.db.sites, s.db.deployTasks, o) { }
  }

  /** A user's running posts are one batch, the running publish orders one publish, and a user never
      submits and publishes at the same time. */
  lemma MutualExclusion(s: State)
    requires Reachable(s)
    ensures forall p, q :: p in s.db.posts && q in s.db.posts && p.user == q.user && p.submit == q.submit == Doing ==>
      p.postTask == q.postTask
    ensures forall o, q :: o in s.db.publishOrders && q in s.db.publishOrders && o.state == Doing && q.state == Doing ==>
      o.user == q.user ==> o.task == q.task
    ensures forall p, o :: p in s.db.posts && o in s.db.publishOrders && p.submit == Doing && o.state == Doing ==>
      p.user != o.user
  {
    ReachableInv(s);
  }

  /** The NOT EXISTS guards that were checked at selection still hold when the dispatcher marks. */
  lemma GuardsHoldAtMarking(s: State)
    requires Reachable(s)
    ensures s.phase.Swept? ==>
      0 <= s.phase.postTask < |s.db.postTasks| && Quiet(s.db, s.db.postTasks[s.phase.postTask].user)
    ensures s.phase.Linked? ==>
      PublishEligible(s.db, s.phase.order) &&
      var o := s.db.publishOrders[s.phase.order];
      o.task == PendingTaskOf(s.db.publishTasks, o.site, o.user) != NONE
    ensures s.phase.Chosen? && s.phase.choice.Deploy? ==> DeployEligible(s.db, s.phase.choice.d)
    ensures s.phase.Chosen? && s.phase.choice.Publish? ==> PublishEligible(s.db, s.phase.choice.o)
    ensures s.phase.Chosen? && s.phase.choice.Submit? ==>
      0 <= s.phase.choice.p < |s.db.posts| && Quiet(s.db, s.db.posts[s.phase.choice.p].user)
  {
    ReachableInv(s);
    if s.phase.Linked? {
      assert PublishOrderAgrees(s.db.publishTasks, s.db.publishOrders[s.phase.order]);
    }
    if s.phase.Chosen? && s.phase.choice.Deploy? {
      assert DeployOrderAgrees(s.db.sites, s.db.deployTasks, s.db.deployOrders[s.phase.choice.d]);
    }
  }

  /** A task is DOING exactly when it has one life: a queued or active job, a completion whose
      finishPostTask is still to come, or the dispatcher holding it before the enqueue. */
  lemma DoingIffAlive(s: State, j: Job)
    requires Reachable(s)
    ensures Lives(s, j) <= 1
    ensures TaskDoing(s.db, j) <==> Lives(s, j) == 1
  {
    ReachableInv(s);
  }

  /** With empty queues and an idle dispatcher nothing is DOING and every guard is open. */
  lemma Quiescence(s: State)
    requires Reachable(s)
    requires s.waiting == multiset{} && s.active == multiset{} && s.closing == map[] && s.phase == Idle
    ensures forall o :: o in s.db.deployOrders ==> o.state != Doing
    ensures forall o :: o in s.db.publishOrders ==> o.state != Doing
    ensures forall p :: p in s.db.posts ==> p.submit != Doing && p.publish != Doing
    ensures forall x :: x in s.db.sites ==> x.status != Deploying && x.status != Publishing
    ensures forall user: nat :: Quiet(s.db, user)
  {
    ReachableInv(s);
    forall j: Job ensures !TaskDoing(s.db, j) {
      assert Lives(s, j) == 0;
    }
    NothingRuns(s.db);
  }

  lemma NothingRuns(db: Db)
    requires DbInv(db) && forall j: Job :: !TaskDoing(db, j)
    ensures forall i :: 0 <= i < |db.deployOrders| ==> db.deployOrders[i].state != Doing
    ensures forall i :: 0 <= i < |db.publishOrders| ==> db.publishOrders[i].state != Doing
    ensures forall i :: 0 <= i < |db.posts| ==> db.posts[i].submit != Doing && db.posts[i].publish != Doing
    ensures forall x :: 0 <= x < |db.sites| ==> db.sites[x].status != Deploying && db.sites[x].status != Publishing
  {
    forall t | 0 <= t < |db.deployTasks| ensures db.deployTasks[t].state != Doing {
      assert !TaskDoing(db, Job(DeployJob, t));
    }
    forall t | 0 <= t < |db.postTasks| ensures db.postTasks[t].state != Doing {
      assert !TaskDoing(db, Job(PostJob, t));
    }
    forall t | 0 <= t < |db.publishTasks| ensures db.publishTasks[t].state != Doing {
      assert !TaskDoing(db, Job(PublishJob, t));
    }
    forall i | 0 <= i < |db.deployOrders| ensures db.deployOrders[i].state != Doing {
      assert DeployOrderAgrees(db.sites, db.deployTasks, db.deployOrders[i]);
    }
    forall i | 0 <= i < |db.publishOrders| ensures db.publishOrders[i].state != Doing {
      assert PublishOrderAgrees(db.publishTasks, db.publishOrders[i]);
    }
    forall i | 0 <= i < |db.posts| ensures db.posts[i].submit != Doing && db.posts[i].publish != Doing {
      assert PostOk(db.publishOrders, db.publishTasks, db.postTasks, db.posts[i]);
    }
  }

  /** No two deploy tasks of the site are in the state. */
  predicate OneDeployTask(tasks: seq<DeployTask>, site: int, state: TaskState) {
    forall t, u :: 0 <= t < u < |tasks| && tasks[t].state == state && tasks[u].state == state ==>
      !(tasks[t].site == site && tasks[u].site == site)
  }

  predicate OnePublishTask(tasks: seq<PublishTask>, site: int, state: TaskState) {
    forall t, u :: 0 <= t < u < |tasks| && tasks[t].state == state && tasks[u].state == state ==>
      !(tasks[t].site == site && tasks[u].site == site)
  }

  /** DEPLOYING and PUBLISHING mean exactly one running task of the site, and every site past
      deployment has a FINISHED deploy task. */
  lemma SiteStatusTells(s: State, x: nat)
    requires Reachable(s) && x < |s.db.sites|
    ensures s.db.sites[x].status == Deploying <==> HasDeployTask(s.db.deployTasks, x, Doing)
    ensures s.db.sites[x].status == Publishing <==> HasPublishTask(s.db.publishTasks, x, Doing)
    ensures PastDeploy(s.db.sites[x].status) <==> HasDeployTask(s.db.deployTasks, x, Finished)
    ensures OneDeployTask(s.db.deployTasks, x, Doing) && OnePublishTask(s.db.publishTasks, x, Doing)
  {
    ReachableInv(s);
  }

  /** At most one publish task of a pair is PENDING, it is the pair's newest, and the lookup of the
      newest task and the lookup by state PENDING agree whenever there is one. */
  lemma PendingTaskIsNewest(s: State, site: nat, user: nat)
    requires Reachable(s) && site < |s.db.sites| && s.db.sites[site].user == user
    ensures OnePublishTask(s.db.publishTasks, site, Pending)
    ensures var latest := LatestTaskOf(s.db.publishTasks, site, user);
            PendingTaskOf(s.db.publishTasks, site, user) ==
            if latest != NONE && s.db.publishTasks[latest].state == Pending then latest else NONE
  {
    ReachableInv(s);
    var pending := PendingTaskOf(s.db.publishTasks, site, user);
    if pending != NONE {
      assert pending <= LatestTaskOf(s.db.publishTasks, site, user);
    }
  }

  /** However the two counts are read, the queue never holds more than wipLimit waiting jobs; j jobs beyond
      the limit in all take 1 + ... + j workers and a limit above 1 + ... + (j - 1), so there are never more
      than (concurrency + 1) / 2 of them. */
  lemma WipBound(s: State)
    requires Reachable(s)
    ensures |s.waiting| <= s.wipLimit
    ensures 0 < Wip.Excess(s) ==> Wip.CanExceedBy(s.wipLimit, s.concurrency, Wip.Excess(s))
    ensures |s.waiting| + |s.active| <= s.wipLimit + (s.concurrency + 1) / 2
  {
    var wipLimit: nat, concurrency: nat, actions :|
      IsRun(Start(wipLimit, concurrency), actions) && After(Start(wipLimit, concurrency), actions) == s;
    Wip.RunBacked(Start(wipLimit, concurrency), actions);
    if 0 < Wip.Excess(s) { Wip.BackedMeans(s); }
  }

  /** A selected deploy or publish order is never refused: the dispatch always gets to the marking. A
      selected post is refused exactly when its user has no site or the newest one is not settled. */
  lemma SelectedIsDispatched(s: State)
    requires Reachable(s)
    ensures DispatcherEnabled(s, AStartDeploy) ==>
      StartDeploy(s).phase == Marked(Job(DeployJob, |s.db.deployTasks|))
    ensures DispatcherEnabled(s, ALinkForPublish) ==> LinkForPublish(s).phase == Linked(s.phase.choice.o)
    ensures DispatcherEnabled(s, AMarkPublish) ==>
      MarkPublish(s).phase == Marked(Job(PublishJob, s.db.publishOrders[s.phase.order].task))
    ensures DispatcherEnabled(s, ASweep) ==>
      var site := DefaultSite(s.db.sites, s.db.posts[s.phase.choice.p].user);
      if site != NONE && Settled(s.db.sites[site].status) then Sweep(s).phase == Swept(|s.db.postTasks|)
      else Sweep(s) == s.(phase := Idle)
  {
    hide Reachable, Inv;
    ReachableInv(s);
    if DispatcherEnabled(s, AStartDeploy) { StepKeeps.StartDeployDb(s); }
    if DispatcherEnabled(s, ALinkForPublish) { LinkIsReached(s); }
    if DispatcherEnabled(s, AMarkPublish) { MarkIsReached(s); }
  }

  lemma LinkIsReached(s: State)
    requires Inv(s) && DispatcherEnabled(s, ALinkForPublish)
    ensures LinkForPublish(s).phase == Linked(s.phase.choice.o)
  {
  }

  lemma MarkIsReached(s: State)
    requires Inv(s) && DispatcherEnabled(s, AMarkPublish)
    ensures MarkPublish(s).phase == Marked(Job(PublishJob, s.db.publishOrders[s.phase.order].task))
  {
    StepKeeps.LinkedIsFound(s.db, s.phase.order);
  }
}

/** What one dispatch leaves behind: the oldest candidate starts, with everything that goes with it, or fails
    at once when its configuration cannot be built. */
module DispatchEffects {
  import opened PipelineTypes
  import opened Tables
  import opened Pipeline
  import opened Invariants
  import opened OldestFirst
  import opened JobEffects
  import Carrying
  import Theorems
  import StepKeeps
  import PostTasks
  import SiteTasks

  function Begun(configFails: bool): TaskState { if configFails then Failed else Doing }

  /** The queue after a dispatch: one job more, unless the configuration failed. */
  function Queued(waiting: multiset<Job>, j: Job, configFails: bool): multiset<Job> {
    if configFails then waiting else waiting + multiset{j}
  }

  // ---- deployments ----

  /** A new task runs the deploy order on its site, and its job waits; or all three have failed. */
  predicate DeployStarts(a: State, b: State, d: int, configFails: bool) {
    0 <= d < |a.db.deployOrders| && a.db.deployOrders[d].site < |a.db.sites| &&
    var order := a.db.deployOrders[d];
    var t := |a.db.deployTasks|;
    var state := Begun(configFails);
    b == a.(phase := Idle, waiting := Queued(a.waiting, Job(DeployJob, t), configFails),
            db := a.db.(
              deployTasks := a.db.deployTasks + [DeployTask(order.user, order.site, state)],
              deployOrders := a.db.deployOrders[d := order.(state := state, task := t)],
              sites := a.db.sites[order.site :=
                a.db.sites[order.site].(status := if configFails then DeployFailed else Deploying)]))
  }

  /** The order that is found for the site is d, and no order carries a task that does not exist. */
  predicate OnlyOrder(db: Db, d: int) {
    0 <= d < |db.deployOrders| && db.deployOrders[d].site < |db.sites| &&
    DeployOrderOf(db.deployOrders, db.deployOrders[d].site, db.deployOrders[d].user) == d &&
    forall i :: 0 <= i < |db.deployOrders| ==> db.deployOrders[i].task < |db.deployTasks|
  }

  lemma ChosenIsOnly(s: State, d: int)
    requires Inv(s) && 0 <= d < |s.db.deployOrders|
    ensures OnlyOrder(s.db, d)
  {
    var order := s.db.deployOrders[d];
    var found := DeployOrderOf(s.db.deployOrders, order.site, order.user);
    assert found >= d;
    forall i | 0 <= i < |s.db.deployOrders| ensures s.db.deployOrders[i].task < |s.db.deployTasks| {
      assert Link(s.db.deployOrders[i].task, |s.db.deployTasks|);
    }
  }

  lemma StartedRows(db: Db, d: int, revived: Db)
    requires OnlyOrder(db, d) && db.sites[db.deployOrders[d].site].status in {Configured, DeployFailed}
    requires revived == SiteTasks.ReviveDeploy(db, d, db.deployOrders[d].site)
    ensures revived.sites[db.deployOrders[d].site].status == Configured
    ensures var order := db.deployOrders[d];
            var t := |db.deployTasks|;
            var started := SiteTasks.StartDeploy(revived, d, order.site, order.user);
            started == db.(deployTasks := db.deployTasks + [DeployTask(order.user, order.site, Doing)],
                           deployOrders := db.deployOrders[d := order.(state := Doing, task := t)],
                           sites := db.sites[order.site := db.sites[order.site].(status := Deploying)]) &&
            SiteTasks.FailDeploy(started, t) ==
              db.(deployTasks := db.deployTasks + [DeployTask(order.user, order.site, Failed)],
                  deployOrders := db.deployOrders[d := order.(state := Failed, task := t)],
                  sites := db.sites[order.site := db.sites[order.site].(status := DeployFailed)])
  {
    var order := db.deployOrders[d];
    var t := |db.deployTasks|;
    var started := SiteTasks.StartDeploy(revived, d, order.site, order.user);
    assert started.deployOrders == db.deployOrders[d := order.(state := Doing, task := t)];
    assert started.sites == db.sites[order.site := db.sites[order.site].(status := Deploying)];
    var failed := SiteTasks.FailDeploy(started, t);
    assert failed.deployTasks == db.deployTasks + [DeployTask(order.user, order.site, Failed)];
    assert failed.deployOrders == db.deployOrders[d := order.(state := Failed, task := t)];
    assert failed.sites == db.sites[order.site := db.sites[order.site].(status := DeployFailed)];
  }

  /** On any tables in which the order is the one that is found: it starts when its site is Configured or
      DeployFailed, and nothing changes otherwise. */
  lemma DeployDispatch(s: State, d: int)
    requires s.phase == Chosen(Deploy(d)) && OnlyOrder(s.db, d)
    ensures var started := StartDeploy(s);
            if s.db.sites[s.db.deployOrders[d].site].status in {Configured, DeployFailed}
            then started.phase.Marked? && DeployStarts(s, Enqueue(started), d, false) && DeployStarts(s, Abandon(started), d, true)
            else started == s.(phase := Idle)
  {
    var order := s.db.deployOrders[d];
    var revived := SiteTasks.ReviveDeploy(s.db, d, order.site);
    if s.db.sites[order.site].status in {Configured, DeployFailed} {
      StartedRows(s.db, d, revived);
    }
    hide SiteTasks.StartDeploy, SiteTasks.CloseDeploy, OnlyOrder;
  }

  /** Selection and dispatch agree: a PENDING order is eligible exactly when its dispatch starts it. */
  lemma EligibleStartsIff(s: State, d: int)
    requires s.phase == Chosen(Deploy(d)) && OnlyOrder(s.db, d) && s.db.deployOrders[d].state == Pending
    ensures DeployEligible(s.db, d) <==> StartDeploy(s).phase.Marked?
  {
    DeployDispatch(s, d);
    hide StartDeploy;
  }

  // ---- batches ----

  /** One new task runs all posts of the user that wait to be submitted, and its job waits; or the task and
      these posts have failed. */
  predicate PostsStart(a: State, b: State, user: nat, configFails: bool) {
    var t := |a.db.postTasks|;
    var state := Begun(configFails);
    |b.db.posts| == |a.db.posts| &&
    b == a.(phase := Idle, waiting := Queued(a.waiting, Job(PostJob, t), configFails),
            db := a.db.(postTasks := a.db.postTasks + [PostTask(user, state, NONE, NONE)], posts := b.db.posts)) &&
    forall i :: 0 <= i < |a.db.posts| ==>
      b.db.posts[i] ==
      if a.db.posts[i].user == user && a.db.posts[i].submit == Pending
      then a.db.posts[i].(postTask := t, submit := state,
                          publish := if configFails then Failed else a.db.posts[i].publish)
      else a.db.posts[i]
  }

  lemma SweptRows(db: Db, user: nat)
    requires forall i :: 0 <= i < |db.posts| ==> db.posts[i].postTask < |db.postTasks|
    ensures var t := |db.postTasks|;
            var doing := PostTasks.DoingTask(PostTasks.Generate(db, user), t);
            doing == db.(postTasks := db.postTasks + [PostTask(user, Doing, NONE, NONE)], posts := doing.posts) &&
            |doing.posts| == |db.posts| &&
            (forall i :: 0 <= i < |db.posts| ==>
              doing.posts[i] ==
              if db.posts[i].user == user && db.posts[i].submit == Pending
              then db.posts[i].(postTask := t, submit := Doing) else db.posts[i])
  {
    var t := |db.postTasks|;
    var doing := PostTasks.DoingTask(PostTasks.Generate(db, user), t);
    assert doing.postTasks == db.postTasks + [PostTask(user, Doing, NONE, NONE)];
  }

  lemma PostsDispatch(s: State, p: int)
    requires Inv(s) && s.phase == Chosen(Submit(p)) && 0 <= p < |s.db.posts|
    ensures var user := s.db.posts[p].user;
            var site := DefaultSite(s.db.sites, user);
            if site != NONE && Settled(s.db.sites[site].status)
            then Sweep(s).phase.Swept? &&
                 var marked := MarkPosts(Sweep(s));
                 PostsStart(s, Enqueue(marked), user, false) && PostsStart(s, Abandon(marked), user, true)
            else Sweep(s) == s.(phase := Idle)
  {
    var user := s.db.posts[p].user;
    var site := DefaultSite(s.db.sites, user);
    hide Inv, PostTasks.DoingTask, PostTasks.Generate, PostTasks.FailTask, PostsStart;
    if site != NONE && Settled(s.db.sites[site].status) {
      PostLinks(s);
      var doing := PostTasks.DoingTask(PostTasks.Generate(s.db, user), |s.db.postTasks|);
      assert MarkPosts(Sweep(s)) == s.(db := doing, phase := Marked(Job(PostJob, |s.db.postTasks|)));
      PostsBegin(s, MarkPosts(Sweep(s)), user, doing);
    }
  }

  lemma PostsBegin(s: State, marked: State, user: nat, doing: Db)
    requires forall i :: 0 <= i < |s.db.posts| ==> s.db.posts[i].postTask < |s.db.postTasks|
    requires doing == PostTasks.DoingTask(PostTasks.Generate(s.db, user), |s.db.postTasks|)
    requires marked == s.(db := doing, phase := Marked(Job(PostJob, |s.db.postTasks|)))
    ensures PostsStart(s, Enqueue(marked), user, false) && PostsStart(s, Abandon(marked), user, true)
  {
    hide PostTasks.DoingTask, PostTasks.Generate, PostTasks.FailTask;
    SweptRows(s.db, user);
    FailedRows(s.db, doing, user);
  }

  lemma PostLinks(s: State)
    requires Inv(s)
    ensures forall i :: 0 <= i < |s.db.posts| ==> s.db.posts[i].postTask < |s.db.postTasks|
    ensures forall i :: 0 <= i < |s.db.posts| ==> s.db.posts[i].submit == Doing ==> s.db.posts[i].postTask != NONE
  {
    forall i | 0 <= i < |s.db.posts|
      ensures PostOk(s.db.publishOrders, s.db.publishTasks, s.db.postTasks, s.db.posts[i]) { }
  }

  lemma FailedRows(db: Db, doing: Db, user: nat)
    requires forall i :: 0 <= i < |db.posts| ==> db.posts[i].postTask < |db.postTasks|
    requires |doing.posts| == |db.posts| && doing.postTasks == db.postTasks + [PostTask(user, Doing, NONE, NONE)]
    requires forall i :: 0 <= i < |db.posts| ==>
      doing.posts[i] ==
      if db.posts[i].user == user && db.posts[i].submit == Pending
      then db.posts[i].(postTask := |db.postTasks|, submit := Doing) else db.posts[i]
    ensures var failed := PostTasks.FailTask(doing, |db.postTasks|);
            failed == doing.(postTasks := db.postTasks + [PostTask(user, Failed, NONE, NONE)], posts := failed.posts) &&
            |failed.posts| == |db.posts| &&
            forall i :: 0 <= i < |db.posts| ==>
              failed.posts[i] ==
              if db.posts[i].user == user && db.posts[i].submit == Pending
              then db.posts[i].(postTask := |db.postTasks|, submit := Failed, publish := Failed) else db.posts[i]
  {
    var failed := PostTasks.FailTask(doing, |db.postTasks|);
    assert failed.postTasks == db.postTasks + [PostTask(user, Failed, NONE, NONE)];
  }

  // ---- publishes ----

  /** The task of the pair's next publish moves to the state, with the unpublished orders of the pair, their
      unpublished posts, any post that carried the task before, and the site; the post tasks of these orders
      carry it; nothing else changes. */
  predicate TakenOn(a: Db, b: Db, site: nat, user: nat, t: int, state: TaskState, status: SiteStatus) {
    var owed := Carrying.Owed(a.publishOrders, site, user);
    site < |a.sites| && NextTaskIs(a.publishTasks, site, user, t) &&
    |b.publishOrders| == |a.publishOrders| && |b.posts| == |a.posts| && |b.postTasks| == |a.postTasks| &&
    b == a.(publishTasks := if t < |a.publishTasks| then a.publishTasks[t := PublishTask(user, site, state)]
                            else a.publishTasks + [PublishTask(user, site, state)],
            publishOrders := b.publishOrders, posts := b.posts, postTasks := b.postTasks,
            sites := a.sites[site := a.sites[site].(status := status)]) &&
    (forall i :: 0 <= i < |a.publishOrders| ==>
      b.publishOrders[i] == if i in owed then a.publishOrders[i].(state := state, task := t) else a.publishOrders[i]) &&
    (forall i :: 0 <= i < |a.posts| ==>
      b.posts[i] ==
      if (a.posts[i].publishOrder in owed && Unpublished(a.posts[i].publish)) || a.posts[i].publishTask == t
      then a.posts[i].(publish := state, publishTask := t) else a.posts[i]) &&
    (forall i :: 0 <= i < |a.postTasks| ==>
      b.postTasks[i] == if a.postTasks[i].publishOrder in owed then a.postTasks[i].(publishTask := t) else a.postTasks[i])
  }

  /** All these run, and the job waits; or they have failed. */
  predicate PublishStartsOn(a: State, b: State, site: nat, user: nat, t: int, configFails: bool) {
    TakenOn(a.db, b.db, site, user, t, Begun(configFails), if configFails then PublishFailed else Publishing) &&
    b == a.(phase := Idle, db := b.db, waiting := Queued(a.waiting, Job(PublishJob, t), configFails))
  }

  ghost predicate PublishStarts(a: State, b: State, o: int, configFails: bool) {
    0 <= o < |a.db.publishOrders| &&
    exists t :: PublishStartsOn(a, b, a.db.publishOrders[o].site, a.db.publishOrders[o].user, t, configFails)
  }

  lemma TakenRows(a: Db, linked: Db, b: Db, site: nat, user: nat, t: int, state: TaskState, status: SiteStatus)
    requires site < |a.sites| && LinkedOn(a, linked, site, user, t) && PublishMoves(linked, b, t, state, status)
    requires forall i :: 0 <= i < |a.publishOrders| && a.publishOrders[i].task == t ==>
      i in Carrying.Owed(a.publishOrders, site, user)
    ensures TakenOn(a, b, site, user, t, state, status)
  {
    hide Carrying.Owed;
    assert linked.publishTasks[t] == PublishTask(user, site, Pending);
    forall i | 0 <= i < |a.publishOrders|
      ensures linked.publishOrders[i].task == t <==> i in Carrying.Owed(a.publishOrders, site, user) { }
    assert t == |a.publishTasks| ==> b.publishTasks == a.publishTasks + [PublishTask(user, site, state)];
  }

  lemma MovedTwice(a: Db, b: Db, c: Db, t: int, s1: TaskState, x1: SiteStatus, s2: TaskState, x2: SiteStatus)
    requires PublishMoves(a, b, t, s1, x1) && PublishMoves(b, c, t, s2, x2)
    ensures PublishMoves(a, c, t, s2, x2)
  {
  }

  lemma PublishDispatchRows(db: Db, site: nat, user: nat, linked: Db, t: int)
    requires PublishInv(db.sites, db.publishOrders, db.publishTasks)
    requires site < |db.sites| && db.sites[site].user == user
    requires linked == SiteTasks.LinkOrGenerate(db, site, user) && t == Carrying.NextTask(db, site, user)
    ensures PendingTaskOf(linked.publishTasks, site, user) == t && 0 <= t < |linked.publishTasks|
    ensures |linked.publishOrders| == |db.publishOrders|
    ensures forall i :: 0 <= i < |db.publishOrders| ==>
      linked.publishOrders[i].site == db.publishOrders[i].site && linked.publishOrders[i].user == db.publishOrders[i].user
    ensures TakenOn(db, SiteTasks.DoingPublish(linked, t), site, user, t, Doing, Publishing)
    ensures TakenOn(db, SiteTasks.FailPublish(SiteTasks.DoingPublish(linked, t), t), site, user, t, Failed, PublishFailed)
  {
    Carrying.LinkedOrders(db, site, user);
    Carrying.NextOrdersOwed(db, site, user);
    LinkEffect(db, site, user);
    assert forall i :: 0 <= i < |db.publishOrders| && db.publishOrders[i].task == t ==> i in OrdersOfTask(db.publishOrders, t);
    hide PublishInv, Carrying.NextTask, Carrying.Owed, SiteTasks.LinkOrGenerate, SiteTasks.MovePublish, PublishMoves, TakenOn;
    LinkedTaskSite(db, linked, site, user, t);
    var doing := SiteTasks.DoingPublish(linked, t);
    PublishMoveEffect(linked, t, Doing, Publishing);
    MovedSite(linked, doing, t, Doing, Publishing);
    PublishMoveEffect(doing, t, Failed, PublishFailed);
    var failed := SiteTasks.FailPublish(doing, t);
    MovedTwice(linked, doing, failed, t, Doing, Publishing, Failed, PublishFailed);
    hide LinkedOn;
    TakenRows(db, linked, doing, site, user, t, Doing, Publishing);
    TakenRows(db, linked, failed, site, user, t, Failed, PublishFailed);
  }

  lemma LinkedTaskSite(a: Db, b: Db, site: nat, user: nat, t: int)
    requires site < |a.sites| && LinkedOn(a, b, site, user, t) && 0 <= t < |b.publishTasks|
    ensures b.publishTasks[t].site < |b.sites|
    ensures |b.publishOrders| == |a.publishOrders|
    ensures forall i :: 0 <= i < |a.publishOrders| ==>
      b.publishOrders[i].site == a.publishOrders[i].site && b.publishOrders[i].user == a.publishOrders[i].user
  {
    hide Carrying.Owed;
  }

  lemma MovedSite(a: Db, b: Db, t: int, state: TaskState, status: SiteStatus)
    requires PublishMoves(a, b, t, state, status)
    ensures 0 <= t < |b.publishTasks| && b.publishTasks[t].site < |b.sites|
  {
  }

  lemma PublishDispatch(s: State, o: int)
    requires Inv(s) && s.phase == Chosen(Publish(o)) && 0 <= o < |s.db.publishOrders|
    ensures var linked := LinkForPublish(s);
            linked.phase == Linked(o) && o < |linked.db.publishOrders| &&
            var marked := MarkPublish(linked);
            marked.phase.Marked? && PublishStarts(s, Enqueue(marked), o, false) && PublishStarts(s, Abandon(marked), o, true)
  {
    var order := s.db.publishOrders[o];
    StepKeeps.ChosenSite(s, o);
    PublishPart(s);
    Theorems.LinkIsReached(s);
    hide Inv, PublishInv, SiteTasks.LinkOrGenerate, SiteTasks.MovePublish, Carrying.NextTask, TakenOn, PublishStarts;
    var t := Carrying.NextTask(s.db, order.site, order.user);
    var linked := SiteTasks.LinkOrGenerate(s.db, order.site, order.user);
    PublishDispatchRows(s.db, order.site, order.user, linked, t);
    assert LinkForPublish(s) == s.(db := linked, phase := Linked(o));
    PublishBegins(s, MarkPublish(LinkForPublish(s)), o, t, SiteTasks.DoingPublish(linked, t));
  }

  lemma PublishBegins(s: State, marked: State, o: int, t: int, doing: Db)
    requires 0 <= o < |s.db.publishOrders|
    requires marked == s.(db := doing, phase := Marked(Job(PublishJob, t)))
    requires var order := s.db.publishOrders[o];
             TakenOn(s.db, doing, order.site, order.user, t, Doing, Publishing) &&
             TakenOn(s.db, SiteTasks.FailPublish(doing, t), order.site, order.user, t, Failed, PublishFailed)
    ensures PublishStarts(s, Enqueue(marked), o, false) && PublishStarts(s, Abandon(marked), o, true)
  {
    hide TakenOn, SiteTasks.MovePublish;
    var order := s.db.publishOrders[o];
    assert PublishStartsOn(s, Enqueue(marked), order.site, order.user, t, false);
    assert PublishStartsOn(s, Abandon(marked), order.site, order.user, t, true);
  }

  lemma PublishPart(s: State)
    requires Inv(s)
    ensures PublishInv(s.db.sites, s.db.publishOrders, s.db.publishTasks)
  {
  }

  // ---- the whole dispatch ----

  /** The choice is the oldest order that is eligible, ties in the order deploy, publish, post; there is none
      exactly when no order is eligible, or when the oldest is a post of user 0 older than all other kinds. */
  ghost predicate IsOldest(db: Db, c: Choice) {
    if c != NoOrder then
      Candidate(db, db, db, c) && forall x :: Candidate(db, db, db, x) ==> NotAfter(db, c, x)
    else
      (forall x :: !Candidate(db, db, db, x)) ||
      exists p :: PostEligible(db, p) && db.posts[p].user == 0 && OldestPost(db, p) &&
        forall x :: Candidate(db, db, db, x) && !x.Submit? ==> CreatedAt(db, Submit(p)) < CreatedAt(db, x)
  }

  ghost predicate OldestPost(db: Db, p: int) {
    0 <= p < |db.posts| && forall x :: PostEligible(db, x) ==> db.posts[p].createdAt <= db.posts[x].createdAt
  }

  /** What becomes of the chosen order. A post is refused when its user has no settled newest site. */
  ghost predicate Dispatched(a: State, b: State, c: Choice, configFails: bool) {
    match c
    case NoOrder => b == a.(phase := Idle)
    case Deploy(d) => DeployStarts(a, b, d, configFails)
    case Publish(o) => PublishStarts(a, b, o, configFails)
    case Submit(p) =>
      0 <= p < |a.db.posts| &&
      var site := DefaultSite(a.db.sites, a.db.posts[p].user);
      if site != NONE && Settled(a.db.sites[site].status) then PostsStart(a, b, a.db.posts[p].user, configFails)
      else b == a.(phase := Idle)
  }

  lemma AnyPhase(a: State, b: State, phase: Phase, c: Choice, configFails: bool)
    requires Dispatched(a.(phase := phase), b, c, configFails)
    ensures Dispatched(a, b, c, configFails)
  {
    hide TakenOn;
    match c
    case Publish(o) =>
      var order := a.db.publishOrders[o];
      var t :| PublishStartsOn(a.(phase := phase), b, order.site, order.user, t, configFails);
      assert PublishStartsOn(a, b, order.site, order.user, t, configFails);
    case _ =>
  }

  /** In a reachable state the chosen deploy order is the only one of its site, and that is Configured. */
  lemma ChosenDeploy(s: State, d: int)
    requires Inv(s) && s.phase == Chosen(Deploy(d))
    ensures OnlyOrder(s.db, d) && s.db.sites[s.db.deployOrders[d].site].status == Configured
  {
    assert DeployPickOk(s.db, d);
    ChosenIsOnly(s, d);
    assert DeployOrderAgrees(s.db.sites, s.db.deployTasks, s.db.deployOrders[d]);
  }

  lemma OldestIsChosen(db: Db, d: int, o: int, p: int)
    requires FirstDeploy(db, d) && FirstPublish(db, o) && FirstPost(db, p)
    requires NONE <= d < |db.deployOrders| && NONE <= o < |db.publishOrders| && NONE <= p < |db.posts|
    ensures IsOldest(db, Oldest(db, d, o, p))
  {
    assert Selected(db, db, db, d, o, p) by {
      hide FirstDeploy, FirstPublish, FirstPost;
    }
    NoChoiceIff(db, db, db, d, o, p);
    if Oldest(db, d, o, p) != NoOrder {
      ChoiceIsOldest(db, db, db, d, o, p);
    } else if p != NONE {
      assert PostEligible(db, p) && OldestPost(db, p);
    }
    hide Quiet, FirstDeploy, FirstPublish, FirstPost, Selected, Oldest, Candidate;
  }
}

/** The order and task services: each method performs its updates one after the other on the database,
    and is proved to do what the operation of the model says. */
module LogicServices {
  import opened PipelineTypes
  import opened Tables
  import opened Store
  import opened RequestEffects
  import PostOrders
  import PostTasks
  import SiteOrders
  import SiteTasks

  /** The row restarts, and a failed publish has its event. */
  predicate Restarted(was: PostOrder, now: PostOrder, retries: multiset<RetryEvent>) {
    Restarts(was, now) && (OnlyPublishFailed(was) ==> RetryEvent(was.user, was.postTask) in retries)
  }

  /** A post whose publish state is FAILED can always be retried, and restarts. */
  lemma RetryRestarts(db: Db, p: int)
    requires 0 <= p < |db.posts| && db.posts[p].publish == Failed
    ensures var r := PostOrders.RetryPost(db, db.posts[p].user, p);
            r.Retried? && |r.db.posts| == |db.posts| && r.db.posts == db.posts[p := r.db.posts[p]] &&
            r.db == db.(posts := r.db.posts, retries := r.db.retries) && db.retries <= r.db.retries &&
            Restarted(db.posts[p], r.db.posts[p], r.db.retries)
  {
  }

  /** What has restarted stays restarted when more events come. */
  lemma RestartedStay(was: seq<PostOrder>, now: seq<PostOrder>, a: multiset<RetryEvent>, b: multiset<RetryEvent>,
                      user: nat, p: int)
    requires |now| == |was| && 0 <= p <= |was| && a <= b
    requires forall k :: 0 <= k < p ==>
      if was[k].user == user && was[k].publish == Failed then Restarted(was[k], now[k], a) else now[k] == was[k]
    ensures forall k :: 0 <= k < p ==>
      if was[k].user == user && was[k].publish == Failed then Restarted(was[k], now[k], b) else now[k] == was[k]
  {
  }

  class PostOrdersService {
    const db: Database

    constructor (db: Database)
      ensures this.db == db
    {
      this.db := db;
    }

    method SavePostOrder(user: nat, submit: TaskState, publish: TaskState)
      modifies db
      ensures db.State() == PostOrders.SavePost(old(db.State()), user, submit, publish)
    {
      db.posts := db.posts + [PostOrder(user, db.clock, submit, publish, Nothing, false, false, NONE, NONE, NONE)];
    }

    method RetryPostOrder(user: nat, p: int) returns (r: PostOrders.RetryResult)
      modifies db
      ensures r == PostOrders.RetryPost(old(db.State()), user, p)
      ensures db.State() == match r case Retried(next) => next case Refused(_) => old(db.State())
      ensures r.Retried? <==>
        0 <= p < |old(db.posts)| && old(db.posts)[p].user == user && SomethingFailed(old(db.posts)[p])
      ensures r.Retried? ==>
        |db.posts| == |old(db.posts)| && Restarts(old(db.posts)[p], db.posts[p]) &&
        db.posts == old(db.posts)[p := db.posts[p]] &&
        db.retries == if OnlyPublishFailed(old(db.posts)[p])
                      then old(db.retries) + multiset{RetryEvent(user, old(db.posts)[p].postTask)} else old(db.retries)
    {
      if !(0 <= p < |db.posts|) || db.posts[p].user != user {
        return PostOrders.Refused(PostOrders.NotFound);
      }
      var post := db.posts[p];
      if post.certificate == Failed {
        post := post.(publish := Pending, submit := Pending, certificate := Pending);
      } else if post.submit == Failed {
        post := post.(publish := Pending, submit := Pending);
        post := post.(postTask := NONE);
      } else if post.publish == Failed {
        post := post.(publish := Pending);
        post := post.(publishOrder := NONE);
        post := post.(publishTask := NONE);
        db.retries := db.retries + multiset{RetryEvent(user, post.postTask)};
      } else {
        return PostOrders.Refused(PostOrders.NoRetryRequired);
      }
      db.posts := db.posts[p := post];
      r := PostOrders.Retried(db.State());
    }

    /** retryUserFailedPostOrders: every post of the user whose publish state is FAILED starts again. */
    method RetryUserFailedPostOrders(user: nat)
      modifies db
      ensures |db.posts| == |old(db.posts)|
      ensures db.State() == old(db.State()).(posts := db.posts, retries := db.retries)
      ensures old(db.retries) <= db.retries
      ensures forall p :: 0 <= p < |db.posts| ==>
        if old(db.posts)[p].user == user && old(db.posts)[p].publish == Failed
        then Restarted(old(db.posts)[p], db.posts[p], db.retries)
        else db.posts[p] == old(db.posts)[p]
    {
      hide PostOrders.RetryPost, Restarted;
      for p := 0 to |db.posts|
        invariant |db.posts| == |old(db.posts)|
        invariant db.State() == old(db.State()).(posts := db.posts, retries := db.retries)
        invariant old(db.retries) <= db.retries
        invariant forall k :: 0 <= k < p ==>
          if old(db.posts)[k].user == user && old(db.posts)[k].publish == Failed
          then Restarted(old(db.posts)[k], db.posts[k], db.retries)
          else db.posts[k] == old(db.posts)[k]
        invariant forall k :: p <= k < |db.posts| ==> db.posts[k] == old(db.posts)[k]
      {
        if db.posts[p].user == user && db.posts[p].publish == Failed {
          ghost var was := db.State();
          RetryRestarts(was, p);
          var r := RetryPostOrder(user, p);
          RestartedStay(old(db.posts), was.posts, was.retries, db.retries, user, p);
        }
      }
    }

    /** handleCertificate without interruption; the outcomes of the first and of the extra upload are given. */
    method HandleCertificate(p: int, storage: bool, firstUpload: bool, extraUpload: bool)
      modifies db
      ensures db.State() ==
        if !storage then old(db.State())
        else if firstUpload || extraUpload
        then PostOrders.StoreCertificate(PostOrders.BeginCertificate(old(db.State()), p), p)
        else PostOrders.LoseCertificate(PostOrders.BeginCertificate(old(db.State()), p), p)
      ensures db.State() == old(db.State()).(posts := db.posts)
      ensures storage && 0 <= p < |old(db.posts)| ==>
        db.posts == old(db.posts)[p :=
          if firstUpload || extraUpload
          then old(db.posts)[p].(storage := true, certified := true, certificate := Finished)
          else old(db.posts)[p].(storage := true, certificate := Failed, submit := Failed, publish := Failed)]
      ensures !(storage && 0 <= p < |old(db.posts)|) ==> db.posts == old(db.posts)
    {
      if !storage || !(0 <= p < |db.posts|) {
        return;
      }
      db.posts := db.posts[p := db.posts[p].(storage := true, certificate := Doing)];
      var stored := firstUpload;
      if !stored {
        stored := extraUpload;
      }
      if stored {
        db.posts := db.posts[p := db.posts[p].(certificate := Finished, certified := true)];
      } else {
        db.posts := db.posts[p := db.posts[p].(certificate := Failed, submit := Failed, publish := Failed)];
      }
    }

    method DoingSubmitPost(postTask: int)
      modifies db
      ensures db.State() == PostOrders.DoingSubmit(old(db.State()), postTask)
    {
      db.BatchUpdatePosts(OfPostTask(postTask), SetSubmit(Doing));
    }

    method FinishSubmitPost(postTask: int, order: int)
      modifies db
      ensures db.State() == PostOrders.FinishSubmit(old(db.State()), postTask, order)
    {
      db.BatchUpdatePosts(DoingOfPostTask(postTask), SetSubmitAndOrder(Finished, order));
    }

    method FailSubmitPost(p: int)
      modifies db
      ensures db.State() == PostOrders.FailSubmit(old(db.State()), p)
    {
      if 0 <= p < |db.posts| {
        db.posts := db.posts[p := db.posts[p].(submit := Failed, publish := Failed)];
      }
    }

    method FailSubmitPostByPostTaskId(postTask: int)
      modifies db
      ensures db.State() == PostOrders.FailSubmitOfTask(old(db.State()), postTask)
    {
      db.BatchUpdatePosts(DoingOfPostTask(postTask), SetSubmitAndPublish(Failed, Failed));
    }

    method UpdatePublishOrderId(postTask: int, order: int)
      modifies db
      ensures db.State() == PostOrders.PointAtOrder(old(db.State()), postTask, order)
    {
      db.BatchUpdatePosts(OfPostTask(postTask), SetPublishOrder(order));
    }

    method UpdatePublishSiteTaskId(orders: set<int>, publishTask: int)
      modifies db
      ensures db.State() == PostOrders.StampPublishTask(old(db.State()), orders, publishTask)
    {
      db.BatchUpdatePosts(UnpublishedOfOrders(orders), SetPublishTask(publishTask));
    }

    method SetPublishState(publishTask: int, state: TaskState)
      modifies db
      ensures db.State() == PostOrders.SetPublishState(old(db.State()), publishTask, state)
    {
      db.BatchUpdatePosts(OfPublishTask(publishTask), SetPublish(state));
    }
  }

  class PostTasksService {
    const db: Database
    const postOrders: PostOrdersService

    constructor (postOrders: PostOrdersService)
      ensures this.postOrders == postOrders && db == postOrders.db
    {
      this.postOrders := postOrders;
      db := postOrders.db;
    }

    method GenerateUserPostTaskForPendingPosts(user: nat) returns (id: int)
      modifies db
      ensures id == |old(db.postTasks)| && db.State() == PostTasks.Generate(old(db.State()), user)
    {
      id := |db.postTasks|;
      db.postTasks := db.postTasks + [PostTask(user, Pending, NONE, NONE)];
      db.BatchUpdatePosts(PendingOfUser(user), SetPostTask(id));
    }

    method DoingPostTask(id: int)
      requires postOrders.db == db
      modifies db
      ensures db.State() == PostTasks.DoingTask(old(db.State()), id)
    {
      db.UpdatePostTask(id, Doing);
      postOrders.DoingSubmitPost(id);
    }

    method FinishPostTask(id: int, order: int)
      requires postOrders.db == db
      modifies db
      ensures db.State() == PostTasks.FinishTask(old(db.State()), id, order)
    {
      if 0 <= id < |db.postTasks| {
        db.postTasks := db.postTasks[id := db.postTasks[id].(state := Finished, publishOrder := order)];
      }
      postOrders.FinishSubmitPost(id, order);
    }

    method FailPostTask(id: int)
      requires postOrders.db == db
      modifies db
      ensures db.State() == PostTasks.FailTask(old(db.State()), id)
    {
      db.UpdatePostTask(id, Failed);
      postOrders.FailSubmitPostByPostTaskId(id);
    }

    method UpdatePublishSiteOrderId(id: int, order: int)
      requires postOrders.db == db
      modifies db
      ensures db.State() == PostTasks.PointAtOrder(old(db.State()), id, order)
    {
      if id == NONE {
        return;
      }
      if 0 <= id < |db.postTasks| {
        db.postTasks := db.postTasks[id := db.postTasks[id].(publishOrder := order)];
      }
      postOrders.UpdatePublishOrderId(id, order);
    }

    method UpdatePublishSiteTaskId(orders: set<int>, publishTask: int)
      requires postOrders.db == db
      modifies db
      ensures db.State() == PostTasks.StampPublishTask(old(db.State()), orders, publishTask)
    {
      db.BatchUpdatePostTasks(orders, publishTask);
      postOrders.UpdatePublishSiteTaskId(orders, publishTask);
    }
  }

  class SiteOrdersService {
    const db: Database
    const postOrders: PostOrdersService
    const postTasks: PostTasksService

    constructor (postTasks: PostTasksService)
      requires postTasks.postOrders.db == postTasks.db
      ensures this.postTasks == postTasks && Wired() && db == postTasks.db
    {
      this.postTasks := postTasks;
      postOrders := postTasks.postOrders;
      db := postTasks.db;
    }

    /** All services work on the same database. */
    predicate Wired() {
      postOrders.db == db && postTasks.db == db && postTasks.postOrders.db == db
    }

    method SaveDeploySiteOrder(user: nat, site: int)
      requires Wired()
      modifies db
      ensures db.State() == SiteOrders.SaveDeployOrder(old(db.State()), user, site)
    {
      if !(0 <= site < |db.sites|) || db.sites[site].user != user {
        return;
      }
      var d := db.GetDeployOrder(site, user);
      if d != NONE {
        if db.sites[site].status == DeployFailed {
          db.UpdateSiteConfigStatus(site, Configured);
          db.deployOrders := db.deployOrders[d := db.deployOrders[d].(state := Pending)];
        }
        return;
      }
      postOrders.SavePostOrder(user, Finished, Finished);
      db.deployOrders := db.deployOrders + [DeployOrder(user, site, db.clock, Pending, NONE)];
    }

    method GeneratePublishSiteOrder(user: nat) returns (order: int)
      modifies db
      ensures SiteOrders.Generated(db.State(), order) == SiteOrders.GeneratePublishOrder(old(db.State()), user)
    {
      var site := db.GetUserDefaultSite(user);
      if site == NONE {
        return NONE;
      }
      order := db.GetPendingOrder(site, user);
      if order == NONE {
        order := |db.publishOrders|;
        db.publishOrders := db.publishOrders + [PublishOrder(user, site, db.clock, Pending, NONE)];
      }
      db.links := db.links + multiset{LinkEvent(site, user)};
    }

    /** handleGeneratePublishSiteOrderEvent up to the second await. */
    method BeginRetry(e: RetryEvent)
      requires e in db.retries
      modifies db
      ensures db.State() == SiteOrders.BeginRetry(old(db.State()), e)
    {
      db.retries := db.retries - multiset{e};
      var order := GeneratePublishSiteOrder(e.user);
      if order != NONE {
        db.repoints := db.repoints + multiset{Repoint(e.postTask, order)};
      }
    }

    /** handleGeneratePublishSiteOrderEvent after the first await. */
    method EndRetry(r: Repoint)
      requires Wired() && r in db.repoints
      modifies db
      ensures db.State() == SiteOrders.EndRetry(old(db.State()), r)
    {
      db.repoints := db.repoints - multiset{r};
      postTasks.UpdatePublishSiteOrderId(r.postTask, r.order);
    }

    method UpdatePublishSiteTaskId(site: nat, user: nat, publishTask: int)
      requires Wired()
      modifies db
      ensures db.State() == SiteOrders.StampPublishTask(old(db.State()), site, user, publishTask)
    {
      db.BatchUpdateOrders(UnpublishedOfSite(user, site), SetTask(publishTask));
      var orders := db.GetOrderIds(publishTask);
      postTasks.UpdatePublishSiteTaskId(orders, publishTask);
    }

    method SetOrdersState(publishTask: int, state: TaskState)
      modifies db
      ensures db.State() == SiteOrders.SetOrdersState(old(db.State()), publishTask, state)
    {
      db.BatchUpdateOrders(OfTask(publishTask), SetState(state));
    }
  }

  class SiteTasksService {
    const db: Database
    const postOrders: PostOrdersService
    const siteOrders: SiteOrdersService

    constructor (siteOrders: SiteOrdersService)
      requires siteOrders.Wired()
      ensures this.siteOrders == siteOrders && Wired() && db == siteOrders.db
    {
      this.siteOrders := siteOrders;
      postOrders := siteOrders.postOrders;
      db := siteOrders.db;
    }

    predicate Wired() {
      postOrders.db == db && siteOrders.db == db && siteOrders.Wired()
    }

    /** Create a deploy task, link the order to it and mark them. */
    method StartDeploySiteTask(order: int, site: nat, user: nat) returns (id: int)
      requires 0 <= order < |db.deployOrders|
      modifies db
      ensures id == |old(db.deployTasks)| && db.State() == SiteTasks.StartDeploy(old(db.State()), order, site, user)
    {
      id := |db.deployTasks|;
      db.deployTasks := db.deployTasks + [DeployTask(user, site, Pending)];
      db.deployOrders := db.deployOrders[order := db.deployOrders[order].(task := id)];
      db.UpdateDeployTask(id, Doing);
      db.UpdateByDeploySiteTaskId(id, Doing);
      db.UpdateSiteConfigStatus(site, Deploying);
      assert db.deployTasks == old(db.deployTasks) + [DeployTask(user, site, Doing)];
    }

    method CloseDeploySiteTask(id: int, state: TaskState, status: SiteStatus)
      modifies db
      ensures db.State() == SiteTasks.CloseDeploy(old(db.State()), id, state, status)
    {
      if !(0 <= id < |db.deployTasks|) {
        return;
      }
      db.UpdateDeployTask(id, state);
      db.UpdateByDeploySiteTaskId(id, state);
      db.UpdateSiteConfigStatus(db.deployTasks[id].site, status);
    }

    method LinkOrGeneratePublishSiteTask(site: nat, user: nat)
      requires Wired()
      modifies db
      ensures db.State() == SiteTasks.LinkOrGenerate(old(db.State()), site, user)
    {
      var t := db.GetLatestTask(site, user);
      if t == NONE || db.publishTasks[t].state != Pending {
        t := |db.publishTasks|;
        db.publishTasks := db.publishTasks + [PublishTask(user, site, Pending)];
      }
      siteOrders.UpdatePublishSiteTaskId(site, user, t);
    }

    /** handleLinkOrGeneratePublishSiteTaskEvent */
    method HandleLink(e: LinkEvent)
      requires Wired() && e in db.links
      modifies db
      ensures db.State() == SiteTasks.LinkOrGenerate(old(db.State().(links := db.links - multiset{e})), e.site, e.user)
    {
      db.links := db.links - multiset{e};
      LinkOrGeneratePublishSiteTask(e.site, e.user);
    }

    /** doing-, finish- and failPublishSiteTask: the task, its orders, its posts, then the site. */
    method MovePublishSiteTask(id: int, state: TaskState, status: SiteStatus)
      requires Wired()
      modifies db
      ensures db.State() == SiteTasks.MovePublish(old(db.State()), id, state, status)
    {
      if !(0 <= id < |db.publishTasks|) {
        return;
      }
      db.UpdatePublishTask(id, state);
      siteOrders.SetOrdersState(id, state);
      postOrders.SetPublishState(id, state);
      db.UpdateSiteConfigStatus(db.publishTasks[id].site, status);
    }
  }
}

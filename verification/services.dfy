/** What each method of the order and task services does to the tables. */
module PostOrders {
  import opened PipelineTypes
  import opened Tables

  datatype RetryError = NotFound | NoRetryRequired
  datatype RetryResult = Retried(db: Db) | Refused(error: RetryError)

  function SavePost(db: Db, user: nat, submit: TaskState, publish: TaskState): Db {
    db.(posts := db.posts + [PostOrder(user, db.clock, submit, publish, Nothing, false, false, NONE, NONE, NONE)])
  }

  /** Restart a post from the step that failed: certificate, submission or publish. */
  function RetryPost(db: Db, user: nat, p: int): RetryResult {
    if !(0 <= p < |db.posts|) || db.posts[p].user != user then Refused(NotFound)
    else
      var post := db.posts[p];
      if post.certificate == Failed then
        Retried(db.(posts := db.posts[p := post.(publish := Pending, submit := Pending, certificate := Pending)]))
      else if post.submit == Failed then
        Retried(db.(posts := db.posts[p := post.(publish := Pending, submit := Pending, postTask := NONE)]))
      else if post.publish == Failed then
        Retried(db.(
          posts := db.posts[p := post.(publish := Pending, publishOrder := NONE, publishTask := NONE)],
          retries := db.retries + multiset{RetryEvent(user, post.postTask)}))
      else Refused(NoRetryRequired)
  }

  function BeginCertificate(db: Db, p: int): Db {
    if 0 <= p < |db.posts|
    then db.(posts := db.posts[p := db.posts[p].(storage := true, certificate := Doing)])
    else db
  }

  function StoreCertificate(db: Db, p: int): Db {
    if 0 <= p < |db.posts|
    then db.(posts := db.posts[p := db.posts[p].(certified := true, certificate := Finished)])
    else db
  }

  /** Both upload attempts failed. */
  function LoseCertificate(db: Db, p: int): Db {
    if 0 <= p < |db.posts|
    then db.(posts := db.posts[p := db.posts[p].(certificate := Failed, submit := Failed, publish := Failed)])
    else db
  }

  function DoingSubmit(db: Db, postTask: int): Db {
    db.(posts := UpdatePosts(db.posts, OfPostTask(postTask), SetSubmit(Doing)))
  }

  function FinishSubmit(db: Db, postTask: int, order: int): Db {
    db.(posts := UpdatePosts(db.posts, DoingOfPostTask(postTask), SetSubmitAndOrder(Finished, order)))
  }

  function FailSubmit(db: Db, p: int): Db {
    if 0 <= p < |db.posts|
    then db.(posts := db.posts[p := db.posts[p].(submit := Failed, publish := Failed)])
    else db
  }

  function FailSubmitOfTask(db: Db, postTask: int): Db {
    db.(posts := UpdatePosts(db.posts, DoingOfPostTask(postTask), SetSubmitAndPublish(Failed, Failed)))
  }

  function PointAtOrder(db: Db, postTask: int, order: int): Db {
    db.(posts := UpdatePosts(db.posts, OfPostTask(postTask), SetPublishOrder(order)))
  }

  function StampPublishTask(db: Db, orders: set<int>, publishTask: int): Db {
    db.(posts := UpdatePosts(db.posts, UnpublishedOfOrders(orders), SetPublishTask(publishTask)))
  }

  function SetPublishState(db: Db, publishTask: int, state: TaskState): Db {
    db.(posts := UpdatePosts(db.posts, OfPublishTask(publishTask), SetPublish(state)))
  }
}

module PostTasks {
  import opened PipelineTypes
  import opened Tables
  import PostOrders

  /** A new PENDING task; every submit-PENDING post of the user is stamped with its id. */
  function Generate(db: Db, user: nat): Db {
    var id := |db.postTasks|;
    db.(postTasks := db.postTasks + [PostTask(user, Pending, NONE, NONE)],
        posts := UpdatePosts(db.posts, PendingOfUser(user), SetPostTask(id)))
  }

  function DoingTask(db: Db, id: int): Db {
    PostOrders.DoingSubmit(db.(postTasks := SetPostTaskState(db.postTasks, id, Doing)), id)
  }

  function FinishTask(db: Db, id: int, order: int): Db {
    var tasks := if 0 <= id < |db.postTasks|
                 then db.postTasks[id := db.postTasks[id].(state := Finished, publishOrder := order)]
                 else db.postTasks;
    PostOrders.FinishSubmit(db.(postTasks := tasks), id, order)
  }

  function FailTask(db: Db, id: int): Db {
    PostOrders.FailSubmitOfTask(db.(postTasks := SetPostTaskState(db.postTasks, id, Failed)), id)
  }

  /** An update by an empty id is refused before anything is written, so without a post task nothing changes. */
  function PointAtOrder(db: Db, id: int, order: int): Db {
    if id == NONE then db
    else
      var tasks := if 0 <= id < |db.postTasks|
                   then db.postTasks[id := db.postTasks[id].(publishOrder := order)]
                   else db.postTasks;
      PostOrders.PointAtOrder(db.(postTasks := tasks), id, order)
  }

  function StampPublishTask(db: Db, orders: set<int>, publishTask: int): Db {
    PostOrders.StampPublishTask(
      db.(postTasks := UpdatePostTasks(db.postTasks, orders, publishTask)), orders, publishTask)
  }
}

module SiteOrders {
  import opened PipelineTypes
  import opened Tables
  import PostOrders
  import PostTasks

  datatype Generated = Generated(db: Db, order: int)

  /** The user's request to deploy a site: the first one also saves the default post. */
  function SaveDeployOrder(db: Db, user: nat, site: int): Db {
    if !(0 <= site < |db.sites|) || db.sites[site].user != user then db
    else
      var d := DeployOrderOf(db.deployOrders, site, user);
      if d != NONE then
        if db.sites[site].status == DeployFailed then
          db.(sites := SetSiteStatus(db.sites, site, Configured),
              deployOrders := db.deployOrders[d := db.deployOrders[d].(state := Pending)])
        else db
      else
        var saved := PostOrders.SavePost(db, user, Finished, Finished);
        saved.(deployOrders := saved.deployOrders + [DeployOrder(user, site, db.clock, Pending, NONE)])
  }

  /** Reuse the newest PENDING publish order of the user's default site or create one, and emit
      the link event. `order` is NONE, and nothing happens, when the user has no site. */
  function GeneratePublishOrder(db: Db, user: nat): Generated {
    var site := DefaultSite(db.sites, user);
    if site == NONE then Generated(db, NONE)
    else
      var linked := db.(links := db.links + multiset{LinkEvent(site, user)});
      var o := PendingOrderOf(db.publishOrders, site, user);
      if o != NONE then Generated(linked, o)
      else Generated(
             linked.(publishOrders := db.publishOrders + [PublishOrder(user, site, db.clock, Pending, NONE)]),
             |db.publishOrders|)
  }

  /** First half of the handler of a RetryEvent. */
  function BeginRetry(db: Db, e: RetryEvent): Db {
    var g := GeneratePublishOrder(db.(retries := db.retries - multiset{e}), e.user);
    if g.order == NONE then g.db
    else g.db.(repoints := g.db.repoints + multiset{Repoint(e.postTask, g.order)})
  }

  /** Second half of the handler of a RetryEvent. */
  function EndRetry(db: Db, r: Repoint): Db {
    PostTasks.PointAtOrder(db.(repoints := db.repoints - multiset{r}), r.postTask, r.order)
  }

  /** Carry every unpublished order of the pair, and their unpublished posts, with the task. */
  function StampPublishTask(db: Db, site: nat, user: nat, publishTask: int): Db {
    var orders := UpdateOrders(db.publishOrders, UnpublishedOfSite(user, site), SetTask(publishTask));
    PostTasks.StampPublishTask(db.(publishOrders := orders), OrdersOfTask(orders, publishTask), publishTask)
  }

  function SetOrdersState(db: Db, publishTask: int, state: TaskState): Db {
    db.(publishOrders := UpdateOrders(db.publishOrders, OfTask(publishTask), SetState(state)))
  }
}

module SiteTasks {
  import opened PipelineTypes
  import opened Tables
  import PostOrders
  import SiteOrders

  /** A retried deployment starts from CONFIGURED again. */
  function ReviveDeploy(db: Db, order: int, site: int): Db {
    if 0 <= order < |db.deployOrders| && 0 <= site < |db.sites| && db.sites[site].status == DeployFailed then
      db.(deployOrders := db.deployOrders[order := db.deployOrders[order].(state := Pending)],
          sites := SetSiteStatus(db.sites, site, Configured))
    else db
  }

  /** Create the deploy task, link the order to it, and mark task, order and site. */
  function StartDeploy(db: Db, order: int, site: nat, user: nat): Db
    requires 0 <= order < |db.deployOrders|
  {
    var id := |db.deployTasks|;
    var linked := db.deployOrders[order := db.deployOrders[order].(task := id)];
    db.(deployTasks := db.deployTasks + [DeployTask(user, site, Doing)],
        deployOrders := UpdateDeployOrders(linked, id, Doing),
        sites := SetSiteStatus(db.sites, site, Deploying))
  }

  function CloseDeploy(db: Db, id: int, state: TaskState, status: SiteStatus): Db {
    if 0 <= id < |db.deployTasks| then
      db.(deployTasks := SetDeployTaskState(db.deployTasks, id, state),
          deployOrders := UpdateDeployOrders(db.deployOrders, id, state),
          sites := SetSiteStatus(db.sites, db.deployTasks[id].site, status))
    else db
  }

  function FinishDeploy(db: Db, id: int): Db { CloseDeploy(db, id, Finished, Deployed) }

  function FailDeploy(db: Db, id: int): Db { CloseDeploy(db, id, Failed, DeployFailed) }

  /** Reuse the newest publish task of the pair if it is PENDING, else create one; then link. */
  function LinkOrGenerate(db: Db, site: nat, user: nat): Db {
    var t := LatestTaskOf(db.publishTasks, site, user);
    if t != NONE && db.publishTasks[t].state == Pending then
      SiteOrders.StampPublishTask(db, site, user, t)
    else
      SiteOrders.StampPublishTask(
        db.(publishTasks := db.publishTasks + [PublishTask(user, site, Pending)]), site, user, |db.publishTasks|)
  }

  /** Move a publish task, its orders and its posts to `state`, and its site to `status`. */
  function MovePublish(db: Db, id: int, state: TaskState, status: SiteStatus): Db {
    if 0 <= id < |db.publishTasks| then
      var tasked := db.(publishTasks := SetPublishTaskState(db.publishTasks, id, state));
      var ordered := SiteOrders.SetOrdersState(tasked, id, state);
      var posted := PostOrders.SetPublishState(ordered, id, state);
      posted.(sites := SetSiteStatus(db.sites, db.publishTasks[id].site, status))
    else db
  }

  function DoingPublish(db: Db, id: int): Db { MovePublish(db, id, Doing, Publishing) }

  function FinishPublish(db: Db, id: int): Db { MovePublish(db, id, Finished, Published) }

  function FailPublish(db: Db, id: int): Db { MovePublish(db, id, Failed, PublishFailed) }
}

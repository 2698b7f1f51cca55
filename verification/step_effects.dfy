/** What every action of users, uploads and event handlers does to the whole state, stated on the rows. */
module StepEffects {
  import opened PipelineTypes
  import opened Tables
  import opened Pipeline
  import opened Invariants
  import opened RequestEffects
  import opened JobEffects
  import History
  import PostOrders
  import SiteOrders
  import SiteTasks

  predicate RetryDone(a: Db, b: Db, user: nat, p: int) {
    if !(0 <= p < |a.posts|) || a.posts[p].user != user || !SomethingFailed(a.posts[p]) then b == a
    else
      |b.posts| == |a.posts| && Restarts(a.posts[p], b.posts[p]) &&
      b == a.(posts := a.posts[p := b.posts[p]],
              retries := if OnlyPublishFailed(a.posts[p])
                         then a.retries + multiset{RetryEvent(user, a.posts[p].postTask)} else a.retries)
  }

  ghost predicate PublishAsked(a: Db, b: Db, user: nat) {
    var site := DefaultSite(a.sites, user);
    if site == NONE then b == a else exists o: nat :: PublishRequested(a, b, site, user, o)
  }

  ghost predicate RetryBegun(a: Db, b: Db, e: RetryEvent) {
    var taken := a.(retries := a.retries - multiset{e});
    var site := DefaultSite(a.sites, e.user);
    if site == NONE then b == taken
    else exists o: nat ::
      b.repoints == a.repoints + multiset{Repoint(e.postTask, o)} &&
      PublishRequested(taken, b.(repoints := a.repoints), site, e.user, o)
  }

  predicate RetryEnded(a: Db, b: Db, r: Repoint) {
    |b.posts| == |a.posts| && |b.postTasks| == |a.postTasks| &&
    b == a.(repoints := a.repoints - multiset{r}, posts := b.posts, postTasks := b.postTasks) &&
    (forall t :: 0 <= t < |a.postTasks| ==>
      b.postTasks[t] == if t == r.postTask then a.postTasks[t].(publishOrder := r.order) else a.postTasks[t]) &&
    (forall i :: 0 <= i < |a.posts| ==>
      b.posts[i] ==
      if r.postTask != NONE && a.posts[i].postTask == r.postTask then a.posts[i].(publishOrder := r.order) else a.posts[i])
  }

  ghost predicate OutsideDoes(s: State, a: OutsideAction, s': State) {
    s' == s.(db := s'.db) &&
    match a
    case ATick => s'.db == s.db.(clock := s.db.clock + 1)
    case ACreateSite(user) => s'.db == s.db.(sites := s.db.sites + [Site(user, Configured)])
    case ASavePost(user) =>
      s'.db == s.db.(posts := s.db.posts +
        [PostOrder(user, s.db.clock, Pending, Pending, Nothing, false, false, NONE, NONE, NONE)])
    case ARequestDeploy(user, site) => DeployRequested(s.db, s'.db, user, site)
    case ARequestPublish(user) => PublishAsked(s.db, s'.db, user)
    case ARetry(user, p) => RetryDone(s.db, s'.db, user, p)
    case ABeginCertificate(p) =>
      0 <= p < |s.db.posts| &&
      s'.db == s.db.(posts := s.db.posts[p := s.db.posts[p].(storage := true, certificate := Doing)])
    case AStoreCertificate(p) =>
      0 <= p < |s.db.posts| &&
      s'.db == s.db.(posts := s.db.posts[p := s.db.posts[p].(certified := true, certificate := Finished)])
    case ALoseCertificate(p) =>
      0 <= p < |s.db.posts| &&
      s'.db == s.db.(posts := s.db.posts[p := s.db.posts[p].(certificate := Failed, submit := Failed, publish := Failed)])
    case ADeliverLink(e) =>
      exists t :: LinkedOn(s.db.(links := s.db.links - multiset{e}), s'.db, e.site, e.user, t)
    case ABeginRetry(e) => RetryBegun(s.db, s'.db, e)
    case AEndRetry(r) => RetryEnded(s.db, s'.db, r)
  }

  /** In every reachable state an action of a user, an upload or a handler does exactly that. */
  lemma OutsideEffect(s: State, a: OutsideAction)
    requires Inv(s) && OutsideEnabled(s, a)
    ensures OutsideDoes(s, a, OutsideNext(s, a))
  {
    hide Inv, DeployRequested, PublishRequested, LinkedOn, PublishInv, SiteOrders.SaveDeployOrder,
         SiteOrders.GeneratePublishOrder, SiteTasks.LinkOrGenerate, SiteOrders.EndRetry, SiteOrders.BeginRetry,
         PostOrders.RetryPost;
    match a
    case ATick =>
    case ACreateSite(_) =>
    case ASavePost(_) =>
    case ARequestDeploy(user, site) => DeployRequestEffect(s, user, site);
    case ARequestPublish(user) => Asked(s.db, user);
    case ARetry(user, p) => RetriedRow(s, user, p);
    case ABeginCertificate(_) =>
    case AStoreCertificate(_) =>
    case ALoseCertificate(_) =>
    case ADeliverLink(e) =>
      History.Parts(s);
      var taken := s.db.(links := s.db.links - multiset{e});
      LinkEffect(taken, e.site, e.user);
    case ABeginRetry(e) => RetryBeginEffect(s.db, e);
    case AEndRetry(r) => RepointTask(s, r); Ended(s.db, r);
  }

  lemma Asked(db: Db, user: nat)
    ensures PublishAsked(db, SiteOrders.GeneratePublishOrder(db, user).db, user)
  {
    PublishRequestEffect(db, user);
    hide SiteOrders.GeneratePublishOrder;
    var site := DefaultSite(db.sites, user);
    if site != NONE {
      var o := SiteOrders.GeneratePublishOrder(db, user).order;
      assert PendingOfPair(SiteOrders.GeneratePublishOrder(db, user).db.publishOrders, o, site, user);
    }
  }

  lemma RetriedRow(s: State, user: nat, p: int)
    ensures OutsideNext(s, ARetry(user, p)) == s.(db := OutsideNext(s, ARetry(user, p)).db)
    ensures RetryDone(s.db, OutsideNext(s, ARetry(user, p)).db, user, p)
  {
    RetryEffect(s.db, user, p);
    var r := PostOrders.RetryPost(s.db, user, p);
    hide PostOrders.RetryPost, Restarts, OnlyPublishFailed;
    match r
    case Retried(after) => assert after.posts == s.db.posts[p := after.posts[p]];
    case Refused(error) => assert error == PostOrders.NotFound || error == PostOrders.NoRetryRequired;
  }

  lemma RepointTask(s: State, r: Repoint)
    requires Inv(s) && r in s.db.repoints
    ensures r.postTask == NONE || 0 <= r.postTask < |s.db.postTasks|
  {
  }

  lemma Ended(db: Db, r: Repoint)
    requires r.postTask == NONE || 0 <= r.postTask < |db.postTasks|
    ensures RetryEnded(db, SiteOrders.EndRetry(db, r), r)
  {
    if r.postTask != NONE {
      RetryEndEffect(db, r);
      hide SiteOrders.EndRetry;
    }
  }
}

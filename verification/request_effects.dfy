/** What a request, an upload and the handler of a retry event leave in the tables, row by row, and what
    that makes of the row in the next selection. */
module RequestEffects {
  import opened PipelineTypes
  import opened Tables
  import opened Pipeline
  import opened Invariants
  import PostOrders
  import SiteOrders

  // ---- retries ----

  /** The row of a post before and after its retry: nothing changes but the states from the step that failed
      on, the post task when the submission failed, the publish links when only the publish did. */
  predicate Restarts(was: PostOrder, now: PostOrder) {
    now ==
    if was.certificate == Failed then was.(certificate := Pending, submit := Pending, publish := Pending)
    else if was.submit == Failed then was.(submit := Pending, publish := Pending, postTask := NONE)
    else was.(publish := Pending, publishOrder := NONE, publishTask := NONE)
  }

  predicate OnlyPublishFailed(p: PostOrder) {
    p.certificate != Failed && p.submit != Failed && p.publish == Failed
  }

  predicate SomethingFailed(p: PostOrder) {
    p.certificate == Failed || p.submit == Failed || p.publish == Failed
  }

  /** A retry is refused exactly when the post is missing or foreign, or nothing of it has failed; otherwise
      its row restarts, an event is added exactly for a failed publish, and nothing else changes. */
  lemma RetryEffect(db: Db, user: nat, p: int)
    ensures var r := PostOrders.RetryPost(db, user, p);
            var own := 0 <= p < |db.posts| && db.posts[p].user == user;
            (r == PostOrders.Refused(PostOrders.NotFound) <==> !own) &&
            (r == PostOrders.Refused(PostOrders.NoRetryRequired) <==> own && !SomethingFailed(db.posts[p])) &&
            (r.Retried? ==>
              |r.db.posts| == |db.posts| && Restarts(db.posts[p], r.db.posts[p]) &&
              r.db == db.(posts := r.db.posts, retries := r.db.retries) &&
              (forall i :: 0 <= i < |db.posts| && i != p ==> r.db.posts[i] == db.posts[i]) &&
              r.db.retries == if OnlyPublishFailed(db.posts[p])
                              then db.retries + multiset{RetryEvent(user, db.posts[p].postTask)} else db.retries)
  {
  }

  /** A retry of a failed submission, or of a failed certificate, makes the post eligible again for a quiet
      user exactly when it needs no certificate or has one. */
  lemma RetriedIsEligibleIff(db: Db, user: nat, p: int, after: Db)
    requires 0 <= p < |db.posts| && db.posts[p].user == user && Quiet(db, user)
    requires db.posts[p].certificate == Failed || db.posts[p].submit == Failed
    requires PostOrders.RetryPost(db, user, p) == PostOrders.Retried(after)
    ensures PostEligible(after, p) <==> !db.posts[p].storage || db.posts[p].certified
  {
    RetryEffect(db, user, p);
    hide PostOrders.RetryPost;
    forall i | 0 <= i < |after.posts| && after.posts[i].user == user
      ensures after.posts[i].submit != Doing && after.posts[i].publish != Doing
    {
      assert db.posts[i].user == user;
    }
    assert after.publishOrders == db.publishOrders;
  }

  // ---- certificates ----

  /** Storing a certificate, step by step: an upload that succeeds leaves a certified post with all else as
      it was, two that fail leave the three states FAILED with all else as it was. */
  lemma CertificateEffect(db: Db, p: int)
    requires 0 <= p < |db.posts|
    ensures var begun := PostOrders.BeginCertificate(db, p);
            var post := db.posts[p];
            begun == db.(posts := db.posts[p := post.(storage := true, certificate := Doing)]) &&
            PostOrders.StoreCertificate(begun, p) ==
              db.(posts := db.posts[p := post.(storage := true, certified := true, certificate := Finished)]) &&
            PostOrders.LoseCertificate(begun, p) ==
              db.(posts := db.posts[p := post.(storage := true, certificate := Failed, submit := Failed, publish := Failed)])
  {
    var begun := PostOrders.BeginCertificate(db, p);
    var post := db.posts[p];
    assert PostOrders.StoreCertificate(begun, p).posts ==
      db.posts[p := post.(storage := true, certified := true, certificate := Finished)];
    assert PostOrders.LoseCertificate(begun, p).posts ==
      db.posts[p := post.(storage := true, certificate := Failed, submit := Failed, publish := Failed)];
  }

  lemma StillQuiet(a: Db, b: Db, p: int, user: nat)
    requires Quiet(a, user) && 0 <= p < |a.posts| == |b.posts| && b.publishOrders == a.publishOrders
    requires forall i :: 0 <= i < |a.posts| && i != p ==> b.posts[i] == a.posts[i]
    requires b.posts[p].submit != Doing && b.posts[p].publish != Doing
    ensures Quiet(b, user)
  {
  }

  /** A waiting post of a quiet user is not eligible while its first upload is under way, is eligible once a
      certificate is stored, and is not when both uploads have failed. */
  lemma UploadGatesSelection(db: Db, p: int)
    requires 0 <= p < |db.posts| && db.posts[p].submit == Pending && Quiet(db, db.posts[p].user)
    ensures var begun := PostOrders.BeginCertificate(db, p);
            (PostEligible(begun, p) <==> db.posts[p].certified) &&
            PostEligible(PostOrders.StoreCertificate(begun, p), p) &&
            !PostEligible(PostOrders.LoseCertificate(begun, p), p)
  {
    CertificateEffect(db, p);
    var begun := PostOrders.BeginCertificate(db, p);
    hide PostOrders.BeginCertificate, PostOrders.StoreCertificate, PostOrders.LoseCertificate, Quiet;
    StillQuiet(db, begun, p, db.posts[p].user) by { NotRunning(db, p); }
    StillQuiet(db, PostOrders.StoreCertificate(begun, p), p, db.posts[p].user) by { NotRunning(db, p); }
  }

  lemma NotRunning(db: Db, p: int)
    requires 0 <= p < |db.posts| && Quiet(db, db.posts[p].user)
    ensures db.posts[p].submit != Doing && db.posts[p].publish != Doing
  {
  }

  // ---- new posts ----

  /** A new post of a quiet user waits to be submitted; it is younger than no other row than those created
      at the same time, and no other row changes. */
  lemma NewPostWaits(db: Db, user: nat)
    requires Quiet(db, user)
    ensures var after := PostOrders.SavePost(db, user, Pending, Pending);
            |after.posts| == |db.posts| + 1 && after == db.(posts := after.posts) && after.posts[..|db.posts|] == db.posts &&
            PostEligible(after, |db.posts|) &&
            after.posts[|db.posts|].user == user && after.posts[|db.posts|].createdAt == db.clock &&
            after.posts[|db.posts|].publish == Pending && after.posts[|db.posts|].certificate == Nothing &&
            after.posts[|db.posts|].postTask == after.posts[|db.posts|].publishOrder == after.posts[|db.posts|].publishTask == NONE
  {
    var after := PostOrders.SavePost(db, user, Pending, Pending);
    forall i | 0 <= i < |after.posts| && after.posts[i].user == user
      ensures after.posts[i].submit != Doing && after.posts[i].publish != Doing
    {
      if i < |db.posts| { assert after.posts[i] == db.posts[i]; }
    }
  }

  // ---- deployments ----

  predicate OwnSite(db: Db, user: nat, site: int) {
    0 <= site < |db.sites| && db.sites[site].user == user
  }

  /** Everything but the site's status and the state of its order d is as before. */
  predicate Revived(a: Db, b: Db, site: int, d: int)
    requires 0 <= site < |a.sites| && 0 <= d < |a.deployOrders|
  {
    b == a.(sites := a.sites[site := a.sites[site].(status := Configured)],
            deployOrders := a.deployOrders[d := a.deployOrders[d].(state := Pending)])
  }

  /** Exactly one order that waits and one default post are new. */
  predicate FirstRequest(a: Db, b: Db, user: nat, site: nat) {
    b == a.(deployOrders := a.deployOrders + [DeployOrder(user, site, a.clock, Pending, NONE)],
            posts := a.posts + [PostOrder(user, a.clock, Finished, Finished, Nothing, false, false, NONE, NONE, NONE)])
  }

  /** The request for a foreign or missing site changes nothing. For an own site without an order there is a
      first request; for one whose deployment has failed, the site and its FAILED order start again; in both
      cases the order is eligible. Any other request changes nothing. */
  ghost predicate DeployRequested(a: Db, b: Db, user: nat, site: int) {
    (!OwnSite(a, user, site) ==> b == a) &&
    (OwnSite(a, user, site) && !HasDeployOrder(a.deployOrders, site) ==>
      a.sites[site].status == Configured && FirstRequest(a, b, user, site) && DeployEligible(b, |a.deployOrders|)) &&
    forall d :: 0 <= d < |a.deployOrders| && a.deployOrders[d].site == site && OwnSite(a, user, site) ==>
      if a.sites[site].status == DeployFailed
      then a.deployOrders[d].state == Failed && Revived(a, b, site, d) && DeployEligible(b, d)
      else b == a
  }

  /** That is what a request to deploy does in every reachable state. */
  lemma DeployRequestEffect(s: State, user: nat, site: int)
    requires Inv(s)
    ensures DeployRequested(s.db, SiteOrders.SaveDeployOrder(s.db, user, site), user, site)
  {
    hide SiteOrders.SaveDeployOrder, FirstRequest, Revived, DeployEligible;
    var after := SiteOrders.SaveDeployOrder(s.db, user, site);
    if OwnSite(s.db, user, site) {
      DeployRows(s, site);
      hide Inv;
      if !HasDeployOrder(s.db.deployOrders, site) {
        DeployRequestRows(s.db, user, site, |s.db.deployOrders|);
      }
      forall d | 0 <= d < |s.db.deployOrders| && s.db.deployOrders[d].site == site
        ensures if s.db.sites[site].status == DeployFailed
                then s.db.deployOrders[d].state == Failed && Revived(s.db, after, site, d) && DeployEligible(after, d)
                else after == s.db
      {
        DeployRequestRows(s.db, user, site, d);
      }
    } else {
      ForeignSite(s.db, user, site);
    }
  }

  lemma ForeignSite(db: Db, user: nat, site: int)
    requires !OwnSite(db, user, site)
    ensures SiteOrders.SaveDeployOrder(db, user, site) == db
  {
  }

  lemma DeployRows(s: State, site: int)
    requires Inv(s) && 0 <= site < |s.db.sites|
    ensures !HasDeployOrder(s.db.deployOrders, site) ==> s.db.sites[site].status == Configured
    ensures forall i :: 0 <= i < |s.db.deployOrders| && s.db.deployOrders[i].site == site ==>
      s.db.deployOrders[i].user == s.db.sites[site].user &&
      (s.db.sites[site].status == DeployFailed ==> s.db.deployOrders[i].state == Failed)
    ensures forall i, j :: 0 <= i < |s.db.deployOrders| && 0 <= j < |s.db.deployOrders| ==>
      s.db.deployOrders[i].site == site && s.db.deployOrders[j].site == site ==> i == j
  {
    forall i | 0 <= i < |s.db.deployOrders| && s.db.deployOrders[i].site == site
      ensures s.db.sites[site].status == DeployFailed ==> s.db.deployOrders[i].state == Failed
    {
      assert DeployOrderAgrees(s.db.sites, s.db.deployTasks, s.db.deployOrders[i]);
    }
  }

  lemma DeployRequestRows(db: Db, user: nat, site: int, d: int)
    requires OwnSite(db, user, site) && 0 <= d <= |db.deployOrders|
    requires d < |db.deployOrders| ==> db.deployOrders[d].site == site && db.deployOrders[d].user == user
    requires d == |db.deployOrders| ==> !HasDeployOrder(db.deployOrders, site) && db.sites[site].status == Configured
    requires forall i :: 0 <= i < |db.deployOrders| && db.deployOrders[i].site == site ==> i == d
    ensures var after := SiteOrders.SaveDeployOrder(db, user, site);
            if d == |db.deployOrders| then FirstRequest(db, after, user, site) && DeployEligible(after, d)
            else if db.sites[site].status == DeployFailed then Revived(db, after, site, d) && DeployEligible(after, d)
            else after == db
  {
    if d == |db.deployOrders| {
      assert DeployOrderOf(db.deployOrders, site, user) == NONE;
    } else {
      assert DeployOrderOf(db.deployOrders, site, user) == d;
    }
  }

  // ---- publish orders ----

  predicate PendingOfPair(orders: seq<PublishOrder>, o: int, site: nat, user: nat) {
    0 <= o < |orders| && orders[o].site == site && orders[o].user == user && orders[o].state == Pending
  }

  /** A request to publish for a user with a site: the order returned is the newest PENDING one of the pair.
      It is an old one if there was one, and else a new row, created now, on no task. The link event of the
      pair is added, and nothing else changes. */
  ghost predicate PublishRequested(a: Db, b: Db, site: nat, user: nat, o: int) {
    PendingOfPair(b.publishOrders, o, site, user) &&
    (forall i :: o < i < |b.publishOrders| ==> !PendingOfPair(b.publishOrders, i, site, user)) &&
    b == a.(publishOrders := b.publishOrders, links := a.links + multiset{LinkEvent(site, user)}) &&
    if exists i :: PendingOfPair(a.publishOrders, i, site, user) then b.publishOrders == a.publishOrders
    else o == |a.publishOrders| && b.publishOrders == a.publishOrders + [PublishOrder(user, site, a.clock, Pending, NONE)]
  }

  lemma PublishRequestEffect(db: Db, user: nat)
    ensures var g := SiteOrders.GeneratePublishOrder(db, user);
            var site := DefaultSite(db.sites, user);
            if site == NONE then g == SiteOrders.Generated(db, NONE) else PublishRequested(db, g.db, site, user, g.order)
  {
    var site := DefaultSite(db.sites, user);
    if site != NONE {
      var o := PendingOrderOf(db.publishOrders, site, user);
      if o != NONE {
        assert PendingOfPair(db.publishOrders, o, site, user);
      }
    }
  }

  /** The handler of a retry event, first half: the event is taken, and for a user with a site an order is
      requested, which the second half is about to use. */
  lemma RetryBeginEffect(db: Db, e: RetryEvent)
    requires e in db.retries
    ensures var after := SiteOrders.BeginRetry(db, e);
            var taken := db.(retries := db.retries - multiset{e});
            var site := DefaultSite(db.sites, e.user);
            if site == NONE then after == taken
            else exists o: nat ::
              after.repoints == db.repoints + multiset{Repoint(e.postTask, o)} &&
              PublishRequested(taken, after.(repoints := db.repoints), site, e.user, o)
  {
    var taken := db.(retries := db.retries - multiset{e});
    var after := SiteOrders.BeginRetry(db, e);
    PublishRequestEffect(taken, e.user);
    var g := SiteOrders.GeneratePublishOrder(taken, e.user);
    if DefaultSite(db.sites, e.user) != NONE {
      assert after.(repoints := db.repoints) == g.db by {
        assert g.db.repoints == db.repoints;
      }
      hide PublishRequested, SiteOrders.GeneratePublishOrder;
      var o: nat := g.order;
      assert after.repoints == db.repoints + multiset{Repoint(e.postTask, o)};
    }
  }

  /** Second half: the post task and all its posts point at the order. */
  lemma RetryEndEffect(db: Db, r: Repoint)
    requires 0 <= r.postTask < |db.postTasks|
    ensures var after := SiteOrders.EndRetry(db, r);
            after == db.(repoints := db.repoints - multiset{r}, posts := after.posts, postTasks := after.postTasks) &&
            |after.posts| == |db.posts| && |after.postTasks| == |db.postTasks| &&
            (forall t :: 0 <= t < |db.postTasks| ==>
              after.postTasks[t] == if t == r.postTask then db.postTasks[t].(publishOrder := r.order) else db.postTasks[t]) &&
            (forall i :: 0 <= i < |db.posts| ==>
              after.posts[i] ==
              if db.posts[i].postTask == r.postTask then db.posts[i].(publishOrder := r.order) else db.posts[i])
  {
  }
}

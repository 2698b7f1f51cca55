/** The link event is emitted before finishPostTask runs. Whenever its handler gets its turn, the next
    publish of the pair marks the same rows. */
module EventOrder {
  import opened PipelineTypes
  import opened Tables
  import opened Pipeline
  import opened Invariants
  import opened Runs
  import opened Batches
  import opened Carrying
  import PublishKeeps
  import PostTasks
  import SiteOrders
  import SiteTasks

  /** What linkOrGenerate does to the tables once the pair's next task t is a row of `tasks`. */
  function Link(db: Db, site: nat, user: nat, tasks: seq<PublishTask>, t: int): Db {
    SiteOrders.StampPublishTask(db.(publishTasks := tasks), site, user, t)
  }

  lemma LinkIs(db: Db, site: nat, user: nat)
    requires PublishInv(db.sites, db.publishOrders, db.publishTasks)
    requires site < |db.sites| && db.sites[site].user == user
    ensures SiteTasks.LinkOrGenerate(db, site, user) ==
      Link(db, site, user, PublishKeeps.WithPending(db.publishTasks, site, user), NextTask(db, site, user))
  {
    PublishKeeps.LinkedTask(db, site, user);
  }

  lemma NextTaskStays(tasks: seq<PublishTask>, site: nat, user: nat)
    ensures var tasks' := PublishKeeps.WithPending(tasks, site, user);
            PublishKeeps.WithPending(tasks', site, user) == tasks'
  {
    var tasks' := PublishKeeps.WithPending(tasks, site, user);
    if tasks' != tasks {
      assert LatestTaskOf(tasks', site, user) == |tasks|;
    }
  }

  lemma StampTwice(db: Db, site: nat, user: nat, t: int)
    ensures var once := SiteOrders.StampPublishTask(db, site, user, t);
            SiteOrders.StampPublishTask(once, site, user, t) == once
  {
    var once := SiteOrders.StampPublishTask(db, site, user, t);
    var orders := UpdateOrders(once.publishOrders, UnpublishedOfSite(user, site), SetTask(t));
    assert orders == once.publishOrders;
    var ids := OrdersOfTask(orders, t);
    assert UpdatePostTasks(once.postTasks, ids, t) == once.postTasks;
    assert UpdatePosts(once.posts, UnpublishedOfOrders(ids), SetPublishTask(t)) == once.posts;
  }

  /** Handling the event twice is handling it once. */
  lemma LinkTwice(db: Db, site: nat, user: nat)
    requires PublishInv(db.sites, db.publishOrders, db.publishTasks)
    requires site < |db.sites| && db.sites[site].user == user
    ensures var once := SiteTasks.LinkOrGenerate(db, site, user);
            SiteTasks.LinkOrGenerate(once, site, user) == once
  {
    var once := SiteTasks.LinkOrGenerate(db, site, user);
    PublishKeeps.LinkedTask(db, site, user);
    NextTaskStays(db.publishTasks, site, user);
    hide PublishInv;
    LinkIs(db, site, user);
    LinkIs(once, site, user);
    StampTwice(db.(publishTasks := once.publishTasks), site, user, NextTask(db, site, user));
  }

  /** Stamping before the posts of task p are finished with an order that gets stamped is invisible
      once they are finished and stamped. */
  lemma StampAroundFinish(db: Db, site: nat, user: nat, t: int, p: int, o: int)
    requires o in Owed(db.publishOrders, site, user) || Batch(db.posts, p) == {}
    ensures var early := PostTasks.FinishTask(SiteOrders.StampPublishTask(db, site, user, t), p, o);
            var late := PostTasks.FinishTask(db, p, o);
            var a := SiteOrders.StampPublishTask(early, site, user, t);
            var b := SiteOrders.StampPublishTask(late, site, user, t);
            a == b.(postTasks := a.postTasks) &&
            (o in Owed(db.publishOrders, site, user) ==> a == b)
  {
    var stamped := SiteOrders.StampPublishTask(db, site, user, t);
    var early := PostTasks.FinishTask(stamped, p, o);
    var late := PostTasks.FinishTask(db, p, o);
    var a := SiteOrders.StampPublishTask(early, site, user, t);
    var b := SiteOrders.StampPublishTask(late, site, user, t);
    var orders := UpdateOrders(db.publishOrders, UnpublishedOfSite(user, site), SetTask(t));
    assert a.publishOrders == orders == b.publishOrders;
    var ids := OrdersOfTask(orders, t);
    forall i | 0 <= i < |db.posts| ensures a.posts[i] == b.posts[i] {
      assert i in Batch(db.posts, p) <==> PostMatches(db.posts[i], DoingOfPostTask(p));
    }
    assert a.posts == b.posts;
    if o in Owed(db.publishOrders, site, user) {
      assert o in ids;
      forall i | 0 <= i < |db.postTasks| ensures a.postTasks[i] == b.postTasks[i] { }
      assert a.postTasks == b.postTasks;
    }
  }

  /** The publish of the pair, dispatched without interruption. */
  function Dispatched(db: Db, site: nat, user: nat): Db {
    SiteTasks.DoingPublish(SiteTasks.LinkOrGenerate(db, site, user), NextTask(db, site, user))
  }

  /** Equal but for the post tasks, whose links only serve the user interface. */
  predicate SameMarks(a: Db, b: Db) {
    a == b.(postTasks := a.postTasks)
  }

  lemma FinishKeepsPublish(db: Db, p: int, o: int, site: nat, user: nat)
    ensures var db' := PostTasks.FinishTask(db, p, o);
            db'.sites == db.sites && db'.publishOrders == db.publishOrders && db'.publishTasks == db.publishTasks &&
            NextTask(db', site, user) == NextTask(db, site, user)
  {
  }

  /** The next publish after one Link, after Link and finishPostTask in either order, and after both
      with a second Link, starts from the same rows. */
  lemma LinkAroundFinish(db: Db, site: nat, user: nat, p: int, o: int)
    requires PublishInv(db.sites, db.publishOrders, db.publishTasks)
    requires site < |db.sites| && db.sites[site].user == user
    requires o in Owed(db.publishOrders, site, user) || Batch(db.posts, p) == {}
    ensures var linked := SiteTasks.LinkOrGenerate(db, site, user);
            var early := SiteTasks.LinkOrGenerate(PostTasks.FinishTask(linked, p, o), site, user);
            var late := SiteTasks.LinkOrGenerate(PostTasks.FinishTask(db, p, o), site, user);
            SameMarks(early, late) && (o in Owed(db.publishOrders, site, user) ==> early == late)
  {
    hide PublishInv, Owed, Batch, SiteOrders.StampPublishTask, SiteTasks.LinkOrGenerate, NextTask;
    var tasks' := PublishKeeps.WithPending(db.publishTasks, site, user);
    var t := NextTask(db, site, user);
    var linked := SiteTasks.LinkOrGenerate(db, site, user);
    LinkIs(db, site, user);
    LinkKeeps(db, site, user);
    NextTaskStays(db.publishTasks, site, user);
    FinishKeepsPublish(db, p, o, site, user);
    FinishKeepsPublish(linked, p, o, site, user);
    LinkIs(PostTasks.FinishTask(db, p, o), site, user);
    LinkIs(PostTasks.FinishTask(linked, p, o), site, user);
    StampAroundFinish(db.(publishTasks := tasks'), site, user, t, p, o);
  }

  lemma LinkKeeps(db: Db, site: nat, user: nat)
    requires PublishInv(db.sites, db.publishOrders, db.publishTasks)
    requires site < |db.sites| && db.sites[site].user == user
    ensures var db' := SiteTasks.LinkOrGenerate(db, site, user);
            PublishInv(db'.sites, db'.publishOrders, db'.publishTasks) && db'.sites == db.sites &&
            db'.publishTasks == PublishKeeps.WithPending(db.publishTasks, site, user) &&
            NextTask(db', site, user) == NextTask(db, site, user)
  {
    PublishKeeps.LinkedTask(db, site, user);
    NextTaskStays(db.publishTasks, site, user);
  }

  lemma MarksFollow(a: Db, b: Db, t: int)
    requires SameMarks(a, b)
    ensures SameMarks(SiteTasks.DoingPublish(a, t), SiteTasks.DoingPublish(b, t))
  {
  }

  /** A completed post task whose order is o: if the link event is not handled at all, before
      finishPostTask, after it, or both before and after, the publish that is dispatched next marks the
      same sites, orders, tasks and posts; and the posts just submitted are among them. */
  lemma HandlerOrderIrrelevant(s: State, p: int, site: nat, user: nat)
    requires Reachable(s) && p in s.closing && 0 <= s.closing[p] < |s.db.publishOrders|
    requires site == s.db.publishOrders[s.closing[p]].site && user == s.db.publishOrders[s.closing[p]].user
    ensures var o := s.closing[p];
            var never := PostTasks.FinishTask(s.db, p, o);
            var before := PostTasks.FinishTask(SiteTasks.LinkOrGenerate(s.db, site, user), p, o);
            var after := SiteTasks.LinkOrGenerate(never, site, user);
            var twice := SiteTasks.LinkOrGenerate(before, site, user);
            SameMarks(Dispatched(before, site, user), Dispatched(never, site, user)) &&
            Dispatched(after, site, user) == Dispatched(never, site, user) &&
            Dispatched(twice, site, user) == Dispatched(before, site, user) &&
            (s.db.publishOrders[o].state == Pending ==>
              Dispatched(before, site, user) == Dispatched(never, site, user)) &&
            forall i :: i in Batch(s.db.posts, p) && Unpublished(s.db.posts[i].publish) ==>
              Dispatched(never, site, user).posts[i] == s.db.posts[i].(submit := Finished, publishOrder := o,
                publish := Doing, publishTask := NextTask(s.db, site, user))
  {
    hide Reachable, Inv;
    ReachableInv(s);
    var o := s.closing[p];
    ClosingOrder(s, p);
    hide PublishInv, Batch, Owed, SiteTasks.LinkOrGenerate, SiteTasks.DoingPublish, PostTasks.FinishTask, NextTask;
    var linked := SiteTasks.LinkOrGenerate(s.db, site, user);
    var never := PostTasks.FinishTask(s.db, p, o);
    var before := PostTasks.FinishTask(linked, p, o);
    FinishKeepsPublish(s.db, p, o, site, user);
    FinishKeepsPublish(linked, p, o, site, user);
    LinkKeeps(s.db, site, user);
    LinkKeeps(never, site, user);
    LinkKeeps(before, site, user);
    LinkTwice(never, site, user);
    LinkTwice(before, site, user);
    LinkAroundFinish(s.db, site, user, p, o);
    MarksFollow(SiteTasks.LinkOrGenerate(before, site, user), SiteTasks.LinkOrGenerate(never, site, user),
                NextTask(never, site, user));
    FinishedAreMarked(s.db, site, user, p, o);
  }

  /** The order kept for a completed task is owed as long as the task has running posts. */
  lemma ClosingOrder(s: State, p: int)
    requires Inv(s) && p in s.closing && 0 <= s.closing[p] < |s.db.publishOrders|
    ensures var order := s.db.publishOrders[s.closing[p]];
            order.site < |s.db.sites| && s.db.sites[order.site].user == order.user &&
            PublishInv(s.db.sites, s.db.publishOrders, s.db.publishTasks) &&
            (order.state == Pending ==> s.closing[p] in Owed(s.db.publishOrders, order.site, order.user)) &&
            (order.state == Pending || Batch(s.db.posts, p) == {})
  {
    forall i | i in Batch(s.db.posts, p) ensures s.db.publishOrders[s.closing[p]].state == Pending {
      assert s.db.posts[i].submit == Doing && s.db.posts[i].postTask in s.closing;
    }
  }

  lemma FinishedAreMarked(db: Db, site: nat, user: nat, p: int, o: int)
    requires PublishInv(db.sites, db.publishOrders, db.publishTasks)
    requires site < |db.sites| && db.sites[site].user == user
    requires o in Owed(db.publishOrders, site, user) || Batch(db.posts, p) == {}
    ensures forall i :: i in Batch(db.posts, p) && Unpublished(db.posts[i].publish) ==>
      0 <= i < |db.posts| && i < |Dispatched(PostTasks.FinishTask(db, p, o), site, user).posts| &&
      Dispatched(PostTasks.FinishTask(db, p, o), site, user).posts[i] == db.posts[i].(submit := Finished, publishOrder := o,
        publish := Doing, publishTask := NextTask(db, site, user))
  {
    var db' := PostTasks.FinishTask(db, p, o);
    FinishKeepsPublish(db, p, o, site, user);
    DispatchCarries(db', site, user);
    BatchEnds(db, p, o);
    hide PublishInv, SiteTasks.LinkOrGenerate, SiteTasks.DoingPublish, NextTask, PostTasks.FinishTask, Owed;
  }
}

/** How the row-level parts of the invariant survive single table updates. */
module RowKeeps {
  import opened PipelineTypes
  import opened Tables
  import opened Invariants

  // ---- sites and events ----

  /** A user who has a site keeps one. */
  lemma KeepsDefaultSite(sites: seq<Site>, sites': seq<Site>, user: nat)
    requires DefaultSite(sites, user) != NONE
    requires |sites| <= |sites'| && forall i :: 0 <= i < |sites| ==> sites'[i].user == sites[i].user
    ensures DefaultSite(sites', user) != NONE
  {
    assert sites'[DefaultSite(sites, user)].user == user;
  }

  lemma KeepsPostTasks(sites: seq<Site>, sites': seq<Site>, postTasks: seq<PostTask>)
    requires PostTasksOk(sites, postTasks)
    requires |sites| <= |sites'| && forall i :: 0 <= i < |sites| ==> sites'[i].user == sites[i].user
    ensures PostTasksOk(sites', postTasks)
  {
    forall t | 0 <= t < |postTasks| ensures DefaultSite(sites', postTasks[t].user) != NONE {
      KeepsDefaultSite(sites, sites', postTasks[t].user);
    }
  }

  lemma SamePostTasks(sites: seq<Site>, postTasks: seq<PostTask>, postTasks': seq<PostTask>)
    requires PostTasksOk(sites, postTasks) && |postTasks'| == |postTasks|
    requires forall t :: 0 <= t < |postTasks| ==> postTasks'[t].user == postTasks[t].user
    ensures PostTasksOk(sites, postTasks')
  {
  }

  /** The tables grow and rows keep their users. */
  predicate UsersKept(db: Db, db': Db) {
    |db.sites| <= |db'.sites| && (forall i :: 0 <= i < |db.sites| ==> db'.sites[i].user == db.sites[i].user) &&
    |db.postTasks| <= |db'.postTasks| &&
    (forall i :: 0 <= i < |db.postTasks| ==> db'.postTasks[i].user == db.postTasks[i].user) &&
    |db.publishOrders| <= |db'.publishOrders| &&
    (forall i :: 0 <= i < |db.publishOrders| ==> db'.publishOrders[i].user == db.publishOrders[i].user)
  }

  lemma EventsStay(db: Db, db': Db)
    requires EventsOk(db) && UsersKept(db, db')
    requires db'.links <= db.links && db'.retries <= db.retries && db'.repoints <= db.repoints
    ensures EventsOk(db')
  {
  }

  // ---- mutual exclusion ----

  /** Exclusion survives when no row starts to run and running rows keep their links. */
  lemma ExclusionShrinks(posts: seq<PostOrder>, orders: seq<PublishOrder>, posts': seq<PostOrder>, orders': seq<PublishOrder>)
    requires Exclusion(posts, orders)
    requires forall i :: 0 <= i < |posts'| && posts'[i].submit == Doing ==>
      i < |posts| && posts[i].submit == Doing && posts'[i].user == posts[i].user && posts'[i].postTask == posts[i].postTask
    requires forall i :: 0 <= i < |orders'| && orders'[i].state == Doing ==>
      i < |orders| && orders[i].state == Doing && orders'[i].user == orders[i].user && orders'[i].task == orders[i].task
    ensures Exclusion(posts', orders')
  {
  }

  /** All running posts of a user without running orders are put on task t. */
  lemma ExclusionMarksPosts(posts: seq<PostOrder>, orders: seq<PublishOrder>, posts': seq<PostOrder>, user: nat, t: int)
    requires Exclusion(posts, orders) && |posts'| == |posts|
    requires forall i :: 0 <= i < |orders| && orders[i].user == user ==> orders[i].state != Doing
    requires forall i :: 0 <= i < |posts'| ==> posts'[i].user == posts[i].user && posts'[i].postTask == posts[i].postTask
    requires forall i :: 0 <= i < |posts'| && posts'[i].submit == Doing ==>
      if posts'[i].user == user then posts'[i].postTask == t else posts[i].submit == Doing
    ensures Exclusion(posts', orders)
  {
  }

  /** All running orders of a user without running posts are put on task t. */
  lemma ExclusionMarksOrders(posts: seq<PostOrder>, orders: seq<PublishOrder>, posts': seq<PostOrder>,
                             orders': seq<PublishOrder>, user: nat, t: int)
    requires Exclusion(posts, orders) && |posts'| == |posts| && |orders'| == |orders|
    requires forall i :: 0 <= i < |posts| && posts[i].user == user ==> posts[i].submit != Doing
    requires forall i :: 0 <= i < |posts'| ==>
      posts'[i].user == posts[i].user && posts'[i].postTask == posts[i].postTask && posts'[i].submit == posts[i].submit
    requires forall i :: 0 <= i < |orders'| ==> orders'[i].user == orders[i].user && orders'[i].task == orders[i].task
    requires forall i :: 0 <= i < |orders'| && orders'[i].state == Doing ==>
      if orders'[i].user == user then orders'[i].task == t else orders[i].state == Doing
    ensures Exclusion(posts', orders')
  {
  }

  // ---- posts ----

  lemma PostAppended(orders: seq<PublishOrder>, tasks: seq<PublishTask>, posts: seq<PostOrder>, postTasks: seq<PostTask>,
                     row: PostOrder)
    requires PostInv(orders, tasks, posts, postTasks) && PostOk(orders, tasks, postTasks, row)
    ensures PostInv(orders, tasks, posts + [row], postTasks)
  {
  }

  lemma PostReplaced(orders: seq<PublishOrder>, tasks: seq<PublishTask>, posts: seq<PostOrder>, postTasks: seq<PostTask>,
                     p: int, row: PostOrder)
    requires PostInv(orders, tasks, posts, postTasks) && PostOk(orders, tasks, postTasks, row)
    requires 0 <= p < |posts|
    ensures PostInv(orders, tasks, posts[p := row], postTasks)
  {
  }

  lemma OrdersGrown(orders: seq<PublishOrder>, tasks: seq<PublishTask>, posts: seq<PostOrder>, postTasks: seq<PostTask>,
                    orders': seq<PublishOrder>)
    requires PostInv(orders, tasks, posts, postTasks) && |orders| <= |orders'|
    ensures PostInv(orders', tasks, posts, postTasks)
  {
    forall i | 0 <= i < |posts| ensures PostOk(orders', tasks, postTasks, posts[i]) {
      assert PostOk(orders, tasks, postTasks, posts[i]);
    }
  }

  lemma PostsLinked(orders: seq<PublishOrder>, tasks: seq<PublishTask>, posts: seq<PostOrder>, postTasks: seq<PostTask>,
                    orders': seq<PublishOrder>, tasks': seq<PublishTask>, ids: set<int>, t: int)
    requires PostInv(orders, tasks, posts, postTasks)
    requires |orders'| == |orders| && 0 <= t < |tasks'| && |tasks| <= |tasks'|
    requires forall u :: 0 <= u < |tasks| ==> tasks'[u] == tasks[u]
    ensures PostInv(orders', tasks', UpdatePosts(posts, UnpublishedOfOrders(ids), SetPublishTask(t)),
                    UpdatePostTasks(postTasks, ids, t))
  {
    var posts' := UpdatePosts(posts, UnpublishedOfOrders(ids), SetPublishTask(t));
    var postTasks' := UpdatePostTasks(postTasks, ids, t);
    forall i | 0 <= i < |posts'| ensures PostOk(orders', tasks', postTasks', posts'[i]) {
      assert PostOk(orders, tasks, postTasks, posts[i]);
    }
  }

  lemma PostsSwept(orders: seq<PublishOrder>, tasks: seq<PublishTask>, posts: seq<PostOrder>, postTasks: seq<PostTask>, user: nat)
    requires PostInv(orders, tasks, posts, postTasks)
    ensures PostInv(orders, tasks, UpdatePosts(posts, PendingOfUser(user), SetPostTask(|postTasks|)),
                    postTasks + [PostTask(user, Pending, NONE, NONE)])
  {
    var posts' := UpdatePosts(posts, PendingOfUser(user), SetPostTask(|postTasks|));
    var postTasks' := postTasks + [PostTask(user, Pending, NONE, NONE)];
    forall i | 0 <= i < |posts'| ensures PostOk(orders, tasks, postTasks', posts'[i]) {
      assert PostOk(orders, tasks, postTasks, posts[i]);
    }
  }

  lemma PostsMarked(orders: seq<PublishOrder>, tasks: seq<PublishTask>, posts: seq<PostOrder>, postTasks: seq<PostTask>, t: int)
    requires PostInv(orders, tasks, posts, postTasks)
    requires 0 <= t < |postTasks| && postTasks[t].state == Pending
    ensures PostInv(orders, tasks, UpdatePosts(posts, OfPostTask(t), SetSubmit(Doing)), SetPostTaskState(postTasks, t, Doing))
  {
    var posts' := UpdatePosts(posts, OfPostTask(t), SetSubmit(Doing));
    forall i | 0 <= i < |posts'| ensures PostOk(orders, tasks, SetPostTaskState(postTasks, t, Doing), posts'[i]) {
      assert PostOk(orders, tasks, postTasks, posts[i]);
    }
  }

  lemma PostsFinished(orders: seq<PublishOrder>, tasks: seq<PublishTask>, posts: seq<PostOrder>, postTasks: seq<PostTask>,
                      t: int, order: int)
    requires PostInv(orders, tasks, posts, postTasks)
    requires 0 <= t < |postTasks| && postTasks[t].state == Doing && 0 <= order < |orders|
    ensures PostInv(orders, tasks, UpdatePosts(posts, DoingOfPostTask(t), SetSubmitAndOrder(Finished, order)),
                    postTasks[t := postTasks[t].(state := Finished, publishOrder := order)])
  {
    var posts' := UpdatePosts(posts, DoingOfPostTask(t), SetSubmitAndOrder(Finished, order));
    var postTasks' := postTasks[t := postTasks[t].(state := Finished, publishOrder := order)];
    forall i | 0 <= i < |posts'| ensures PostOk(orders, tasks, postTasks', posts'[i]) {
      assert PostOk(orders, tasks, postTasks, posts[i]);
    }
  }

  lemma PostsFailed(orders: seq<PublishOrder>, tasks: seq<PublishTask>, posts: seq<PostOrder>, postTasks: seq<PostTask>, t: int)
    requires PostInv(orders, tasks, posts, postTasks)
    requires 0 <= t < |postTasks| && postTasks[t].state == Doing
    ensures PostInv(orders, tasks, UpdatePosts(posts, DoingOfPostTask(t), SetSubmitAndPublish(Failed, Failed)),
                    SetPostTaskState(postTasks, t, Failed))
  {
    var posts' := UpdatePosts(posts, DoingOfPostTask(t), SetSubmitAndPublish(Failed, Failed));
    forall i | 0 <= i < |posts'| ensures PostOk(orders, tasks, SetPostTaskState(postTasks, t, Failed), posts'[i]) {
      assert PostOk(orders, tasks, postTasks, posts[i]);
    }
  }

  lemma PostsPointed(orders: seq<PublishOrder>, tasks: seq<PublishTask>, posts: seq<PostOrder>, postTasks: seq<PostTask>,
                     t: int, order: int, postTasks': seq<PostTask>)
    requires PostInv(orders, tasks, posts, postTasks) && 0 <= order < |orders|
    requires |postTasks'| == |postTasks|
    requires forall u :: 0 <= u < |postTasks| ==>
      postTasks'[u].state == postTasks[u].state && postTasks'[u].user == postTasks[u].user
    ensures PostInv(orders, tasks, UpdatePosts(posts, OfPostTask(t), SetPublishOrder(order)), postTasks')
  {
    var posts' := UpdatePosts(posts, OfPostTask(t), SetPublishOrder(order));
    forall i | 0 <= i < |posts'| ensures PostOk(orders, tasks, postTasks', posts'[i]) {
      assert PostOk(orders, tasks, postTasks, posts[i]);
    }
  }

  /** Posts that carry a publish task move with it. */
  lemma PostsFollow(orders: seq<PublishOrder>, tasks: seq<PublishTask>, posts: seq<PostOrder>, postTasks: seq<PostTask>,
                    orders': seq<PublishOrder>, t: int, state: TaskState)
    requires PostInv(orders, tasks, posts, postTasks) && |orders'| == |orders|
    requires 0 <= t < |tasks| && state in {Doing, Finished, Failed}
    requires tasks[t].state == if state == Doing then Pending else Doing
    ensures PostInv(orders', SetPublishTaskState(tasks, t, state),
                    UpdatePosts(posts, OfPublishTask(t), SetPublish(state)), postTasks)
  {
    var posts' := UpdatePosts(posts, OfPublishTask(t), SetPublish(state));
    forall i | 0 <= i < |posts'| ensures PostOk(orders', SetPublishTaskState(tasks, t, state), postTasks, posts'[i]) {
      assert PostOk(orders, tasks, postTasks, posts[i]);
    }
  }
}

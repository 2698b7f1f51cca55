/** The database as the base services use it: batched updates and queries as loops over the tables. */
module Store {
  import opened PipelineTypes
  import opened Tables
  import opened Pipeline

  class Database {
    var clock: nat
    var sites: seq<Site>
    var deployOrders: seq<DeployOrder>
    var deployTasks: seq<DeployTask>
    var publishOrders: seq<PublishOrder>
    var publishTasks: seq<PublishTask>
    var posts: seq<PostOrder>
    var postTasks: seq<PostTask>
    var links: multiset<LinkEvent>
    var retries: multiset<RetryEvent>
    var repoints: multiset<Repoint>

    function State(): Db
      reads this
    {
      Db(clock, sites, deployOrders, deployTasks, publishOrders, publishTasks, posts, postTasks, links, retries, repoints)
    }

    constructor ()
      ensures State() == EmptyDb
    {
      clock := 0;
      sites := [];
      deployOrders, deployTasks := [], [];
      publishOrders, publishTasks := [], [];
      posts, postTasks := [], [];
      links, retries, repoints := multiset{}, multiset{}, multiset{};
    }

    // ---- batched updates ----

    /** UPDATE post_order SET c WHERE w */
    method BatchUpdatePosts(w: PostWhere, c: PostSet)
      modifies this`posts
      ensures posts == UpdatePosts(old(posts), w, c)
    {
      for i := 0 to |posts|
        invariant |posts| == |old(posts)|
        invariant forall k :: 0 <= k < i ==> posts[k] == UpdatePosts(old(posts), w, c)[k]
        invariant forall k :: i <= k < |posts| ==> posts[k] == old(posts)[k]
      {
        if PostMatches(posts[i], w) {
          posts := posts[i := PostChanged(posts[i], c)];
        }
      }
    }

    /** UPDATE publish_site_order SET c WHERE w */
    method BatchUpdateOrders(w: OrderWhere, c: OrderSet)
      modifies this`publishOrders
      ensures publishOrders == UpdateOrders(old(publishOrders), w, c)
    {
      for i := 0 to |publishOrders|
        invariant |publishOrders| == |old(publishOrders)|
        invariant forall k :: 0 <= k < i ==> publishOrders[k] == UpdateOrders(old(publishOrders), w, c)[k]
        invariant forall k :: i <= k < |publishOrders| ==> publishOrders[k] == old(publishOrders)[k]
      {
        if OrderMatches(publishOrders[i], w) {
          publishOrders := publishOrders[i := OrderChanged(publishOrders[i], c)];
        }
      }
    }

    /** UPDATE post_task SET publishSiteTaskId WHERE publishSiteOrderId IN orders */
    method BatchUpdatePostTasks(orders: set<int>, publishTask: int)
      modifies this`postTasks
      ensures postTasks == UpdatePostTasks(old(postTasks), orders, publishTask)
    {
      for i := 0 to |postTasks|
        invariant |postTasks| == |old(postTasks)|
        invariant forall k :: 0 <= k < i ==> postTasks[k] == UpdatePostTasks(old(postTasks), orders, publishTask)[k]
        invariant forall k :: i <= k < |postTasks| ==> postTasks[k] == old(postTasks)[k]
      {
        if postTasks[i].publishOrder in orders {
          postTasks := postTasks[i := postTasks[i].(publishTask := publishTask)];
        }
      }
    }

    /** updateByDeploySiteTaskId */
    method UpdateByDeploySiteTaskId(task: int, state: TaskState)
      modifies this`deployOrders
      ensures deployOrders == UpdateDeployOrders(old(deployOrders), task, state)
    {
      for i := 0 to |deployOrders|
        invariant |deployOrders| == |old(deployOrders)|
        invariant forall k :: 0 <= k < i ==> deployOrders[k] == UpdateDeployOrders(old(deployOrders), task, state)[k]
        invariant forall k :: i <= k < |deployOrders| ==> deployOrders[k] == old(deployOrders)[k]
      {
        if deployOrders[i].task == task {
          deployOrders := deployOrders[i := deployOrders[i].(state := state)];
        }
      }
    }

    // ---- updates by primary key ----

    method UpdateSiteConfigStatus(site: int, status: SiteStatus)
      modifies this`sites
      ensures sites == SetSiteStatus(old(sites), site, status)
    {
      if 0 <= site < |sites| {
        sites := sites[site := sites[site].(status := status)];
      }
    }

    method UpdatePostTask(id: int, state: TaskState)
      modifies this`postTasks
      ensures postTasks == SetPostTaskState(old(postTasks), id, state)
    {
      if 0 <= id < |postTasks| {
        postTasks := postTasks[id := postTasks[id].(state := state)];
      }
    }

    method UpdateDeployTask(id: int, state: TaskState)
      modifies this`deployTasks
      ensures deployTasks == SetDeployTaskState(old(deployTasks), id, state)
    {
      if 0 <= id < |deployTasks| {
        deployTasks := deployTasks[id := deployTasks[id].(state := state)];
      }
    }

    method UpdatePublishTask(id: int, state: TaskState)
      modifies this`publishTasks
      ensures publishTasks == SetPublishTaskState(old(publishTasks), id, state)
    {
      if 0 <= id < |publishTasks| {
        publishTasks := publishTasks[id := publishTasks[id].(state := state)];
      }
    }

    // ---- queries ----

    /** getUserDefaultSiteConfig */
    method GetUserDefaultSite(user: nat) returns (r: int)
      ensures r == DefaultSite(sites, user)
    {
      r := |sites| - 1;
      while r >= 0 && sites[r].user != user
        invariant NONE <= r < |sites|
        invariant forall j :: r < j < |sites| ==> sites[j].user != user
      {
        r := r - 1;
      }
    }

    method GetDeployOrder(site: nat, user: nat) returns (r: int)
      ensures r == DeployOrderOf(deployOrders, site, user)
    {
      r := |deployOrders| - 1;
      while r >= 0 && !(deployOrders[r].site == site && deployOrders[r].user == user)
        invariant NONE <= r < |deployOrders|
        invariant forall j :: r < j < |deployOrders| ==> !(deployOrders[j].site == site && deployOrders[j].user == user)
      {
        r := r - 1;
      }
    }

    /** getBySiteConfigUserIdAndState of the publish orders, for PENDING. */
    method GetPendingOrder(site: nat, user: nat) returns (r: int)
      ensures r == PendingOrderOf(publishOrders, site, user)
    {
      r := |publishOrders| - 1;
      while r >= 0 && !(publishOrders[r].site == site && publishOrders[r].user == user && publishOrders[r].state == Pending)
        invariant NONE <= r < |publishOrders|
        invariant forall j :: r < j < |publishOrders| ==>
          !(publishOrders[j].site == site && publishOrders[j].user == user && publishOrders[j].state == Pending)
      {
        r := r - 1;
      }
    }

    /** getBySiteConfigUserId of the publish tasks: the newest. */
    method GetLatestTask(site: nat, user: nat) returns (r: int)
      ensures r == LatestTaskOf(publishTasks, site, user)
    {
      r := |publishTasks| - 1;
      while r >= 0 && !(publishTasks[r].site == site && publishTasks[r].user == user)
        invariant NONE <= r < |publishTasks|
        invariant forall j :: r < j < |publishTasks| ==> !(publishTasks[j].site == site && publishTasks[j].user == user)
      {
        r := r - 1;
      }
    }

    /** getBySiteConfigUserIdAndState of the publish tasks, for PENDING. */
    method GetPendingTask(site: nat, user: nat) returns (r: int)
      ensures r == PendingTaskOf(publishTasks, site, user)
    {
      r := |publishTasks| - 1;
      while r >= 0 && !(publishTasks[r].site == site && publishTasks[r].user == user && publishTasks[r].state == Pending)
        invariant NONE <= r < |publishTasks|
        invariant forall j :: r < j < |publishTasks| ==>
          !(publishTasks[j].site == site && publishTasks[j].user == user && publishTasks[j].state == Pending)
      {
        r := r - 1;
      }
    }

    /** getByPublishSiteTaskId, mapped to ids. */
    method GetOrderIds(task: int) returns (ids: set<int>)
      ensures ids == OrdersOfTask(publishOrders, task)
    {
      ids := {};
      for i := 0 to |publishOrders|
        invariant ids == set k | 0 <= k < i && publishOrders[k].task == task
      {
        if publishOrders[i].task == task {
          ids := ids + {i};
        }
      }
    }

    // ---- the selections of the dispatcher ----

    /** The two NOT EXISTS subqueries. */
    method IsQuiet(user: nat) returns (quiet: bool)
      ensures quiet <==> Quiet(State(), user)
    {
      for i := 0 to |posts|
        invariant forall k :: 0 <= k < i && posts[k].user == user ==> posts[k].submit != Doing && posts[k].publish != Doing
      {
        if posts[i].user == user && (posts[i].submit == Doing || posts[i].publish == Doing) {
          return false;
        }
      }
      for i := 0 to |publishOrders|
        invariant forall k :: 0 <= k < i && publishOrders[k].user == user ==> publishOrders[k].state != Doing
      {
        if publishOrders[i].user == user && publishOrders[i].state == Doing {
          return false;
        }
      }
      return true;
    }

    method GetFirstPendingDeploySiteOrder() returns (d: int)
      ensures FirstDeploy(State(), d)
    {
      d := NONE;
      for i := 0 to |deployOrders|
        invariant NONE <= d < i
        invariant d == NONE ==> forall k :: 0 <= k < i ==> !DeployEligible(State(), k)
        invariant d != NONE ==> DeployEligible(State(), d)
        invariant d != NONE ==> forall k :: 0 <= k < i && DeployEligible(State(), k) ==>
          deployOrders[d].createdAt <= deployOrders[k].createdAt
      {
        if DeployEligible(State(), i) && (d == NONE || deployOrders[i].createdAt < deployOrders[d].createdAt) {
          d := i;
        }
      }
    }

    method GetFirstPendingPublishSiteOrder() returns (o: int)
      ensures FirstPublish(State(), o)
    {
      o := NONE;
      for i := 0 to |publishOrders|
        invariant NONE <= o < i
        invariant o == NONE ==> forall k :: 0 <= k < i ==> !PublishEligible(State(), k)
        invariant o != NONE ==> PublishEligible(State(), o)
        invariant o != NONE ==> forall k :: 0 <= k < i && PublishEligible(State(), k) ==>
          publishOrders[o].createdAt <= publishOrders[k].createdAt
      {
        var order := publishOrders[i];
        var quiet := IsQuiet(order.user);
        if order.state == Pending && order.site < |sites| && Settled(sites[order.site].status) && quiet &&
           (o == NONE || order.createdAt < publishOrders[o].createdAt)
        {
          o := i;
        }
      }
    }

    method GetFirstPendingPostOrder() returns (p: int)
      ensures FirstPost(State(), p)
    {
      p := NONE;
      for i := 0 to |posts|
        invariant NONE <= p < i
        invariant p == NONE ==> forall k :: 0 <= k < i ==> !PostEligible(State(), k)
        invariant p != NONE ==> PostEligible(State(), p)
        invariant p != NONE ==> forall k :: 0 <= k < i && PostEligible(State(), k) ==> posts[p].createdAt <= posts[k].createdAt
      {
        var post := posts[i];
        var quiet := IsQuiet(post.user);
        if post.submit == Pending && (!post.storage || post.certified) && quiet &&
           (p == NONE || post.createdAt < posts[p].createdAt)
        {
          p := i;
        }
      }
    }
  }
}

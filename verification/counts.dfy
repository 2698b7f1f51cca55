/** The post counts shown to a user: the grouped count of the database and the summary made of it. */
module PostCounts {
  import opened PipelineTypes

  /** One row of SELECT publishState AS state, COUNT(publishState) ... GROUP BY state. */
  datatype Row = Row(state: TaskState, count: nat)

  datatype Summary = Summary(allPostCount: nat, publishingCount: nat, publishedCount: nat, publishingAlertFlag: bool)

  /** The posts of the user in a publish state. */
  function InState(posts: seq<PostOrder>, user: nat, state: TaskState): set<int> {
    set i | 0 <= i < |posts| && posts[i].user == user && posts[i].publish == state
  }

  /** The filter of pagiUserPublishingPostOrders. */
  function Publishing(posts: seq<PostOrder>, user: nat): set<int> {
    set i | 0 <= i < |posts| && posts[i].user == user && posts[i].publish in {Pending, Doing}
  }

  /** The filter of pagiUserPublishedPostOrders. */
  function Published(posts: seq<PostOrder>, user: nat): set<int> { InState(posts, user, Finished) }

  /** The filter of listUserFailedPostOrders. */
  function FailedPosts(posts: seq<PostOrder>, user: nat): set<int> { InState(posts, user, Failed) }

  /** The user's posts that have a publish state at all. */
  function Counted(posts: seq<PostOrder>, user: nat): set<int> {
    set i | 0 <= i < |posts| && posts[i].user == user && posts[i].publish != Nothing
  }

  /** The rows are the user's posts grouped by publish state: one row for each state that occurs. */
  predicate Grouped(posts: seq<PostOrder>, user: nat, rows: seq<Row>) {
    (forall k, l :: 0 <= k < l < |rows| ==> rows[k].state != rows[l].state) &&
    (forall k :: 0 <= k < |rows| ==> rows[k].count == |InState(posts, user, rows[k].state)|) &&
    (forall i :: 0 <= i < |posts| && posts[i].user == user ==> HasRow(rows, posts[i].publish))
  }

  predicate HasRow(rows: seq<Row>, state: TaskState) {
    exists k :: 0 <= k < |rows| && rows[k].state == state
  }

  /** countUserPostOrders: the rows as a record; a state without posts has no entry. */
  method CountUserPostOrders(posts: seq<PostOrder>, user: nat, rows: seq<Row>) returns (result: map<TaskState, nat>)
    requires Grouped(posts, user, rows)
    ensures forall state :: state in result ==> result[state] == |InState(posts, user, state)|
    ensures forall state :: state !in result ==> InState(posts, user, state) == {}
  {
    result := map[];
    for k := 0 to |rows|
      invariant forall state :: state in result <==> exists l :: 0 <= l < k && rows[l].state == state
      invariant forall state :: state in result ==> result[state] == |InState(posts, user, state)|
    {
      result := result[rows[k].state := rows[k].count];
    }
    forall state | state !in result ensures InState(posts, user, state) == {} {
      forall i | 0 <= i < |posts| && posts[i].user == user ensures posts[i].publish != state {
        assert HasRow(rows, posts[i].publish);
      }
    }
  }

  function Entry(counts: map<TaskState, nat>, state: TaskState): nat {
    if state in counts then counts[state] else 0
  }

  /** countUserPostOrdersAsNotification */
  method CountUserPostOrdersAsNotification(posts: seq<PostOrder>, user: nat, rows: seq<Row>) returns (r: Summary)
    requires Grouped(posts, user, rows)
    ensures r.publishingCount == |Publishing(posts, user)|
    ensures r.publishedCount == |Published(posts, user)|
    ensures r.publishingAlertFlag <==> FailedPosts(posts, user) != {}
    ensures r.allPostCount == |Counted(posts, user)|
    ensures r.allPostCount == r.publishingCount + r.publishedCount + |FailedPosts(posts, user)|
  {
    var counts := CountUserPostOrders(posts, user, rows);
    var pending := Entry(counts, Pending);
    var doing := Entry(counts, Doing);
    var finished := Entry(counts, Finished);
    var failed := Entry(counts, Failed);
    r := Summary(pending + doing + finished + failed, pending + doing, finished, failed > 0);
    CountsSplit(posts, user);
  }

  /** The states split the counted posts. */
  lemma CountsSplit(posts: seq<PostOrder>, user: nat)
    ensures |Publishing(posts, user)| == |InState(posts, user, Pending)| + |InState(posts, user, Doing)|
    ensures |Counted(posts, user)| ==
      |Publishing(posts, user)| + |Published(posts, user)| + |FailedPosts(posts, user)|
  {
    var pending, doing := InState(posts, user, Pending), InState(posts, user, Doing);
    var finished, failed := InState(posts, user, Finished), InState(posts, user, Failed);
    assert Publishing(posts, user) == pending + doing;
    assert |pending + doing| == |pending| + |doing| by { assert pending !! doing; }
    assert Counted(posts, user) == pending + doing + finished + failed;
    assert (pending + doing) !! finished && (pending + doing + finished) !! failed;
  }
}

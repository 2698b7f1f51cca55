/** The invariant holds in every state that any run reaches. */
module Runs {
  import opened PipelineTypes
  import opened Pipeline
  import opened Invariants
  import PostOrders
  import SiteOrders
  import SiteTasks
  import opened StateKeeps
  import opened StepKeeps

  lemma StartInv(wipLimit: nat, concurrency: nat)
    ensures Inv(Start(wipLimit, concurrency))
  {
    StartLives(wipLimit, concurrency);
    EmptyDbInv();
    hide DbInv, LivesOk, TaskDoing;
  }

  lemma StartLives(wipLimit: nat, concurrency: nat)
    ensures LivesOk(Start(wipLimit, concurrency))
  {
    var s := Start(wipLimit, concurrency);
    forall j: Job ensures Lives(s, j) == 0 && !TaskDoing(s.db, j) { }
  }

  lemma EmptyDbInv()
    ensures DbInv(EmptyDb)
  {
  }

  lemma StepInv(s: State, a: Action)
    requires Inv(s) && Enabled(s, a)
    ensures Inv(Next(s, a))
  {
    hide Inv, OutsideEnabled, OutsideNext, DispatcherEnabled, DispatcherNext, WorkerEnabled, WorkerNext;
    match a
    case Outside(o) => OutsideInv(s, o);
    case Dispatcher(d) => DispatcherInv(s, d);
    case Worker(w) => WorkerInv(s, w);
  }

  lemma OutsideInv(s: State, a: OutsideAction)
    requires Inv(s) && OutsideEnabled(s, a)
    ensures Inv(OutsideNext(s, a))
  {
    hide Inv, PostOrders.RetryPost, PostOrders.BeginCertificate, PostOrders.StoreCertificate, PostOrders.LoseCertificate,
         PostOrders.SavePost, SiteOrders.SaveDeployOrder, SiteOrders.GeneratePublishOrder, SiteOrders.BeginRetry,
         SiteOrders.EndRetry, SiteTasks.LinkOrGenerate;
    match a
    case ATick => TickInv(s);
    case ACreateSite(user) => CreateSite(s, user);
    case ASavePost(user) => SavePost(s, user);
    case ARequestDeploy(user, site) => RequestDeploy(s, user, site);
    case ARequestPublish(user) => RequestPublish(s, user);
    case ARetry(user, p) => Retry(s, user, p);
    case ABeginCertificate(p) => Certificate(s, p);
    case AStoreCertificate(p) => Certificate(s, p);
    case ALoseCertificate(p) => Certificate(s, p);
    case ADeliverLink(e) => DeliverLink(s, e);
    case ABeginRetry(e) => BeginRetry(s, e);
    case AEndRetry(r) => EndRetry(s, r);
  }

  lemma DispatcherInv(s: State, a: DispatcherAction)
    requires Inv(s) && DispatcherEnabled(s, a)
    ensures Inv(DispatcherNext(s, a))
  {
    hide Inv, ReadActive, ReadWaiting, PickDeploy, PickPublish, PickPost, StartDeploy, Sweep, MarkPosts,
         LinkForPublish, MarkPublish, Enqueue, Abandon, FirstDeploy, FirstPublish, FirstPost;
    match a
    case AReadActive => ReadActiveInv(s);
    case AReadWaiting => ReadWaitingInv(s);
    case APickDeploy(d) => PickDeployInv(s, d);
    case APickPublish(o) => PickPublishInv(s, o);
    case APickPost(p) => PickPostInv(s, p);
    case AStartDeploy => StartDeployInv(s);
    case ASweep => SweepInv(s);
    case AMarkPosts => MarkPostsInv(s);
    case ALinkForPublish => LinkForPublishInv(s);
    case AMarkPublish => MarkPublishInv(s);
    case AEnqueue => EnqueueInv(s);
    case AAbandon => AbandonInv(s);
  }

  lemma WorkerInv(s: State, a: WorkerAction)
    requires Inv(s) && WorkerEnabled(s, a)
    ensures Inv(WorkerNext(s, a))
  {
    hide Inv, StartJob, CompleteDeploy, OrderFirstPublish, CompletePosts, FinishPosts, CompletePublish, FailJob,
         PostOrders.FailSubmit;
    match a
    case AStartJob(j) => StartJobInv(s, j);
    case AReport(_, p) => Certificate(s, p);
    case ACompleteDeploy(t) => CompleteDeployInv(s, t);
    case AOrderFirstPublish(t) => OrderFirstPublishInv(s, t);
    case ACompletePosts(t) => CompletePostsInv(s, t);
    case AFinishPosts(t) => FinishPostsInv(s, t);
    case ACompletePublish(t) => CompletePublishInv(s, t);
    case AFailJob(j) => FailJobInv(s, j);
  }

  lemma TickInv(s: State)
    requires Inv(s)
    ensures Inv(s.(db := s.db.(clock := s.db.clock + 1)))
  {
    var db' := s.db.(clock := s.db.clock + 1);
    assert DbInv(db');
    hide Inv, DbInv;
    Aside(s, db');
  }

  lemma {:induction false} RunInv(s: State, actions: seq<Action>)
    requires Inv(s) && IsRun(s, actions)
    ensures Inv(After(s, actions))
    decreases |actions|
  {
    if actions != [] {
      StepInv(s, actions[0]);
      RunInv(Next(s, actions[0]), actions[1..]);
    }
  }

  // ---- putting runs together ----

  lemma NoStep(s: State)
    ensures IsRun(s, []) && After(s, []) == s
  {
  }

  lemma RunCons(s: State, a: Action, rest: seq<Action>, actions: seq<Action>)
    requires Enabled(s, a) && IsRun(Next(s, a), rest) && actions == [a] + rest
    ensures IsRun(s, actions) && After(s, actions) == After(Next(s, a), rest)
  {
    hide Enabled, Next;
    assert actions[1..] == rest;
  }

  lemma {:induction false} RunAppend(s: State, first: seq<Action>, rest: seq<Action>)
    requires IsRun(s, first) && IsRun(After(s, first), rest)
    ensures IsRun(s, first + rest) && After(s, first + rest) == After(After(s, first), rest)
    decreases |first|
  {
    if first == [] {
      assert first + rest == rest;
    } else {
      hide Enabled, Next;
      assert (first + rest)[1..] == first[1..] + rest;
      RunAppend(Next(s, first[0]), first[1..], rest);
    }
  }

  lemma RunSnoc(s: State, first: seq<Action>, a: Action)
    requires IsRun(s, first) && Enabled(After(s, first), a)
    ensures IsRun(s, first + [a]) && After(s, first + [a]) == Next(After(s, first), a)
  {
    hide Enabled, Next;
    NoStep(Next(After(s, first), a));
    RunCons(After(s, first), a, [], [a]);
    RunAppend(s, first, [a]);
  }

  /** Every action of the run satisfies ok in the state it is taken in. */
  ghost predicate Within(s: State, actions: seq<Action>, ok: (State, Action) -> bool)
    requires IsRun(s, actions)
    decreases |actions|
  {
    actions == [] || (ok(s, actions[0]) && Within(Next(s, actions[0]), actions[1..], ok))
  }

  /** Reachable from the empty tables under some configuration. */
  ghost predicate Reachable(s: State) {
    exists wipLimit: nat, concurrency: nat, actions ::
      IsRun(Start(wipLimit, concurrency), actions) && After(Start(wipLimit, concurrency), actions) == s
  }

  lemma ReachableInv(s: State)
    requires Reachable(s)
    ensures Inv(s)
  {
    var wipLimit: nat, concurrency: nat, actions :|
      IsRun(Start(wipLimit, concurrency), actions) && After(Start(wipLimit, concurrency), actions) == s;
    StartInv(wipLimit, concurrency);
    RunInv(Start(wipLimit, concurrency), actions);
  }
}

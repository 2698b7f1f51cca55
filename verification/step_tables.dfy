/** Which table operation each step of the dispatcher and of the job queue performs. */
module StepTables {
  import opened PipelineTypes
  import opened Pipeline
  import opened Invariants
  import StepKeeps
  import PostOrders
  import PostTasks
  import SiteOrders
  import SiteTasks

  /** The tables after an action of the job queue. */
  lemma WorkerDb(s: State, a: WorkerAction)
    requires WorkerEnabled(s, a)
    ensures WorkerNext(s, a).db ==
      match a
      case AStartJob(_) => s.db
      case AReport(_, p) => PostOrders.FailSubmit(s.db, p)
      case ACompleteDeploy(t) => SiteTasks.FinishDeploy(s.db, t)
      case AOrderFirstPublish(t) => SiteOrders.GeneratePublishOrder(s.db, s.db.deployTasks[t].user).db
      case ACompletePosts(t) => SiteOrders.GeneratePublishOrder(s.db, s.db.postTasks[t].user).db
      case AFinishPosts(t) => PostTasks.FinishTask(s.db, t, s.closing[t])
      case ACompletePublish(t) => SiteTasks.FinishPublish(s.db, t)
      case AFailJob(j) => FailTask(s.db, j)
  {
  }

  /** The tables after a step of the dispatcher: unchanged, or changed by the step's operation. */
  lemma DispatcherDb(s: State, a: DispatcherAction)
    requires Inv(s) && DispatcherEnabled(s, a)
    ensures var db' := DispatcherNext(s, a).db;
            db' == s.db ||
            match a
            case AStartDeploy =>
              var o := s.db.deployOrders[s.phase.choice.d];
              db' == SiteTasks.StartDeploy(s.db, s.phase.choice.d, o.site, o.user)
            case ASweep => db' == PostTasks.Generate(s.db, s.db.posts[s.phase.choice.p].user)
            case AMarkPosts => db' == PostTasks.DoingTask(s.db, s.phase.postTask)
            case ALinkForPublish =>
              var o := s.db.publishOrders[s.phase.choice.o];
              db' == SiteTasks.LinkOrGenerate(s.db, o.site, o.user)
            case AMarkPublish =>
              var t := s.db.publishOrders[s.phase.order].task;
              0 <= t < |s.db.publishTasks| && s.db.publishTasks[t].state == Pending &&
              db' == SiteTasks.DoingPublish(s.db, t)
            case AAbandon => db' == FailTask(s.db, s.phase.job)
            case _ => false
  {
    match a
    case AStartDeploy => StepKeeps.StartDeployDb(s); hide Inv;
    case AMarkPublish => StepKeeps.LinkedIsFound(s.db, s.phase.order);
    case _ => hide Inv, FirstDeploy, FirstPublish, FirstPost;
  }
}

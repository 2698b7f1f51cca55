# A verified model of the publishing pipeline

The system turns posts into published sites. Users save posts, ask for deployments and publishes, and retry
what failed; a single serial dispatcher takes the oldest eligible order, marks the rows it concerns as DOING and
puts a job into a queue; workers run the jobs; and the ends of jobs, single-post reports, certificate uploads and
two in-process events change the same six tables meanwhile. Almost every transition is a batched
`UPDATE ... WHERE`, so what goes right or wrong is decided by the WHERE clauses. This project models those
updates with their clauses, the protocol around them, and two smaller parts of the same repository: the runner
of multi-step tasks and the comma-separated lists of tags and categories.

## How it is built

- `types.dfy`, `tables.dfy`: the rows, the events, and what one query or one batched update does to a table. A
  row is identified by its position, which is also its age.
- `services.dfy`: every operation of the order and task services as a function on the tables.
- `store.dfy`, `logic_services.dfy`, `dispatcher_service.dfy`: the same operations as the source has them, objects
  that change tables step by step, batched updates and selections as loops, proved against those functions;
  an uninterrupted `dispatchNextTask` is proved to be a run of the state machine.
- `dispatcher.dfy`: the pipeline as a state machine. An action is one atomic step of a user, an upload, an event
  handler, the dispatcher (reading the active count, reading the waiting count, three selections, sweep or link,
  marking, enqueue or failure) or the job queue. Any enabled action may come next.
- `invariants.dfy`, `keeps_*.dfy`, `runs.dfy`: an inductive invariant and the proof that every action keeps it.
- `request_effects.dfy`, `job_effects.dfy`, `dispatch_effects.dfy`, `step_effects.dfy`: what requests, jobs, one
  dispatch and every other action leave in the rows, without the functions that compute it. `creation.dfy`: rows are
  in the order of their creation.
- `theorems.dfy`, `follow_ups.dfy`: what holds in every reachable state. `history.dfy`: what is never taken back.
  `batches.dfy`: the life of a batch of posts. `carrying.dfy`: the life of a publish. `event_order.dfy`: the order
  of event handlers does not matter. `measure.dfy`: drainage. `oldest.dfy`: oldest first. `wip.dfy`: the limit of
  jobs. `step_tables.dfy`: the table operation behind each step.
- `ownership.dfy`: posts stay with their users. `overtaking.dfy`, `hanging.dfy`: two properties that hold in part of
  the runs only, each with the exact condition on the single step. `whole_batches.dfy`: what holds besides when
  submissions fail as whole batches. `stuck.dfy`: what frees a post whose retry was lost. `scenarios.dfy`: runs from
  the empty tables into the states where a property fails.
- `step_chain.dfy`, `step_chain_service.dfy`: the step-chain runner. `commas.dfy`: comma lists. `counts.dfy`: the
  counts shown to a user.

## Assumptions

- Each method of a logic service is one atomic step, except where the model cuts it: `dispatchNextTask` into its
  reads, selections, preparation, marking and enqueue, `finishTask` before `finishPostTask` and before the first
  publish order of a deployed site, and the handler of the retry event between its two awaits.
- The end of a job and the first write of finishTask or failTask are one step. The queue takes the job out a moment
  earlier, so there is a short time in which the queue is empty and the task still DOING that is no state of the model.
- The database layer (TypeORM 0.2) refuses an update by an empty id before it writes anything. This is the behaviour of
  that library, whose source is not part of this repository.
- One backend instance, automatic dispatch only, dispatch requests handled one at a time.
- A job is reported complete or failed exactly once; an ERRORED report comes while a post job is live, but may
  name any post.
- Creation times come from a clock that never goes back; rows of one table are numbered in creation order.
- Failures of everything outside (user lookup, configuration, certificate upload, the work of a job) are
  nondeterministic. `updateDomain` succeeds. Sites are never deleted.
- Publish order id 0 and the empty task id are the same "no link" (`NONE`), and an empty `IN` list matches nothing.

## What the proofs show about the code

- The repair of a Publishing site in `dispatchPublishSiteTask` cannot happen: the selection never offers such a site
  (`Theorems.GuardsHoldAtMarking`), and the lookup it depends on yields an object that is never falsy.
- A post can be published without being submitted, in two ways: a retry re-points all posts of the post task,
  also those whose submission has failed (`Scenarios.RetriedSiblingOvertakes`), and a restart from the certificate
  keeps the publish links (`Scenarios.LateCertificateOvertakes`). The guards that exclude both are exact at every
  step (`Overtaking.HarmlessIff`): a step that breaks one leaves an unsubmitted post with publish links.
- A publish retry of a post without post task comes to nothing: its handler makes an order, but the update by the
  empty id is refused, so the post is PENDING without an order and a further retry is refused
  (`Ownership.RetryReachesOrderIff`, `Scenarios.UnanchoredRetryIsDropped`). Such a post still waits to be submitted
  (`Ownership.UnanchoredRetryIff`).
- A publish retry can leave its post stuck, PENDING on a FINISHED order: when its handler has found an order and a
  publish of that order is marked before the posts are pointed at it (`Scenarios.RetryGetsLost`, exactly:
  `Hanging.RetryGetsLostIff`, `Hanging.MarkHangsIff`). In runs of harmless steps without such a marking, and without a re-pointing that joins a
  linked publish unstamped, nothing is forgotten; retries and publishes of other orders may interleave freely. A stuck
  post cannot be retried; exactly a report naming it, the loss of its certificate, or the re-pointing of its batch by
  another retry to an order that is not FINISHED frees it (`Stuck.StuckIff`).
- The oldest waiting post of a user without a settled site blocks every younger order of every user
  (`OldestFirst.HeadBlocksDispatch`, `Scenarios.HeadOfLineBlocks`); deploy and publish orders never block
  (`Theorems.SelectedIsDispatched`).
- The limit of jobs is exact if no job starts between the two counts (`Wip.LimitIsExact`), and a permission keeps it
  if and only if the true number of jobs is below it (`Wip.KeepsLimitIff`). Otherwise it can be overshot, by an amount
  that grows with the square root of the number of workers only (`Wip.ExcessIff`).

## Model

| member | source | states |
|---|---|---|
| `Theorems.OrderTaskAgreement` | `src/api/pipelines/post-orders/post-orders.logic.service.ts:485-735` | In every reachable state a post that is being submitted is on a running post task of its own user, a submitted post with a task is on a FINISHED one, a post that is being published or was published under a task has that publish task's state, and every publish and deploy order agrees with its task (PENDING or FAILED on a PENDING task, else the task's state). |
| `Theorems.MutualExclusion` | `src/api/pipelines/post-orders/post-orders.logic.service.ts:56-80` | In every reachable state all submit-DOING posts of a user share one post task, all DOING publish orders of a user share one publish task, and a user never has both. |
| `Theorems.GuardsHoldAtMarking` | `src/api/pipelines/worker-tasks/worker-tasks.dispatcher.service.ts:710-807` | The site status and the NOT EXISTS guards that held when an order was selected still hold when the dispatcher acts on it and when it marks, whatever users, handlers and jobs did in between; the linked order's task is the PENDING task that the marking looks up. |
| `Theorems.SelectedIsDispatched` | `src/api/pipelines/worker-tasks/worker-tasks.dispatcher.service.ts:138-147` | In every reachable state a selected deploy or publish order is never refused, and a selected post is refused exactly when its user has no site or the newest one is not Deployed, Published or PublishFailed. |
| `Theorems.DoingIffAlive` | `src/api/pipelines/worker-tasks/worker-tasks.dispatcher.service.ts:157-192` | In every reachable state a task is DOING exactly when it has one life (queued, active, waiting for finishPostTask, or held by the dispatcher between marking and enqueue), and it never has two. |
| `Theorems.Quiescence` | `src/api/pipelines/worker-tasks/worker-tasks.consumer.service.ts:85-116` | With empty queues, an idle dispatcher and no post job between the two halves of finishTask, no order or post is DOING, no site is Deploying or Publishing, and every NOT EXISTS guard is open. |
| `Theorems.SiteStatusTells` | `src/api/pipelines/site-tasks/site-tasks.logic.service.ts:102-146` | A site is Deploying (Publishing) exactly when it has a DOING deploy (publish) task, never two, and is past deployment exactly when it has a FINISHED deploy task. |
| `Theorems.PendingTaskIsNewest` | `src/api/pipelines/site-tasks/publish-site-tasks.base.service.ts:22-57` | For every pair of site and user at most one publish task is PENDING, and the lookup of the newest task and the lookup by state PENDING return the same row whenever the newest is PENDING and find nothing otherwise. |
| `Theorems.WipBound` | `src/api/pipelines/worker-tasks/worker-tasks.dispatcher.service.ts:703-716` | However the active and the waiting count are read, waiting jobs never exceed wipLimit; j jobs beyond the limit in all need 1 + ... + j workers and a limit above 1 + ... + (j - 1), so waiting plus active jobs never exceed wipLimit + (concurrency + 1) / 2. |
| `Wip.LimitIsExact` | `src/api/pipelines/worker-tasks/worker-tasks.dispatcher.service.ts:710-716` | If no job becomes active between the two readings, waiting plus active jobs never exceed wipLimit, over all runs. |
| `Wip.ExcessIff` | `src/api/pipelines/worker-tasks/worker-tasks.dispatcher.service.ts:710-716` | For every configuration and every j > 0: some run from the empty tables shows exactly j jobs beyond the limit if and only if 1 + ... + j workers and a limit above 1 + ... + (j - 1) are configured. |
| `Wip.TornReadsOvershoot` | `src/api/pipelines/worker-tasks/worker-tasks.dispatcher.service.ts:710-716` | The runs behind it: jobs that start between the two readings lead to exactly j jobs beyond the limit, in every configuration that allows it. |
| `Wip.KeepsLimitIff` | `src/api/pipelines/worker-tasks/worker-tasks.dispatcher.service.ts:710-716` | A step keeps the total, counting a permission as a job, within the limit if and only if it does not give permission while the true total has reached the limit. |
| `Wip.TrueRoomKeepsLimit` | `src/api/pipelines/worker-tasks/worker-tasks.dispatcher.service.ts:710-716` | Over all runs in which permission is given only while the true total is below the limit, the total stays within it. |
| `Runs.RunInv` | `src/api/pipelines/worker-tasks/worker-tasks.dispatcher.service.ts:740-807` | Every action of users, handlers, dispatcher and job queue keeps the whole invariant, so every run does. |
| `History.StepSettles` | `src/api/pipelines/site-tasks/site-tasks.logic.service.ts:102-146` | No step takes back what is settled: tasks only advance (PENDING, DOING, then FINISHED or FAILED once), FINISHED orders stay as they are, a deployed site stays deployed, rows keep user and creation time. |
| `History.SettledForGood` | `src/api/pipelines/site-tasks/site-tasks.logic.service.ts:233-309` | The same over whole runs: a deployed site never returns to Configured, Deploying or DeployFailed, FINISHED and FAILED tasks and FINISHED publish orders never change. |
| `FollowUps.NothingIsOmitted` | `src/api/pipelines/site-orders/site-orders.logic.service.ts:161-188` | In every reachable state a publish order that is on no task is announced by a link event still to be handled, the user of a finished deployment has a publish order unless the step that creates it is still to come, and at most one publish order of a pair is PENDING. |
| `StepEffects.OutsideEffect` | `src/api/pipelines/post-orders/post-orders.logic.service.ts:299-617` | In every reachable state each action of a user, an upload or an event handler has exactly the stated effect on the rows and leaves everything else as it was: new rows with all their fields, the fields a retry, an upload or a re-pointing changes, the orders, posts and post tasks a link stamps. |
| `JobEffects.WorkerEffect` | `src/api/pipelines/worker-tasks/worker-tasks.dispatcher.service.ts:577-660` | In every reachable state the same for each action of the job queue: a finished or failed deployment moves its task, the one order of its site and the site; a finished or failed batch its task and exactly its running posts; a finished or failed publish its task, orders, posts and site; completions leave the order that finishTask generates. |
| `JobEffects.LinkEffect` | `src/api/pipelines/site-tasks/site-tasks.logic.service.ts:148-172` | The link leaves the tables as they were but for one PENDING task of the pair, created only if there was none, carried by exactly the unpublished orders of the pair, their unpublished posts and their post tasks. |
| `RequestEffects.RetryEffect` | `src/api/pipelines/post-orders/post-orders.logic.service.ts:299-385` | On any tables: a retry is refused exactly for a missing or foreign post or one of which nothing has failed; otherwise exactly the named fields of its row change, and an event is added exactly when only the publish failed. |
| `RequestEffects.RetriedIsEligibleIff` | `src/api/pipelines/post-orders/post-orders.logic.service.ts:314-344` | A post of a quiet user whose certificate or submission was retried is eligible again if and only if it needs no certificate or has one. |
| `RequestEffects.CertificateEffect` | `src/api/pipelines/post-orders/post-orders.logic.service.ts:408-482` | An upload that succeeds leaves the post certified and FINISHED, two that fail leave its three states FAILED; no other field but the storage type changes. |
| `RequestEffects.UploadGatesSelection` | `src/api/pipelines/post-orders/post-orders.logic.service.ts:56-80` | A waiting post of a quiet user is not eligible during its first upload, is eligible once a certificate is stored, and is not after two failed uploads. |
| `RequestEffects.NewPostWaits` | `src/api/pipelines/post-orders/post-orders.logic.service.ts:257-270` | A new post of a quiet user is eligible, created now and on no task; no other row changes. |
| `RequestEffects.DeployRequestEffect` | `src/api/pipelines/site-orders/site-orders.logic.service.ts:68-131` | In every reachable state: the first request for an own site creates one order that waits and one default post; after a failed deployment the site is Configured and its FAILED order PENDING again; in both cases the order is eligible; any other request changes nothing. |
| `RequestEffects.PublishRequestEffect` | `src/api/pipelines/site-orders/site-orders.logic.service.ts:161-188` | On any tables: the order returned is the newest PENDING one of the pair, an old one if there was one and else a new row created now; the link event is added; nothing else changes, and nothing at all for a user without a site. |
| `DispatchEffects.DeployDispatch` | `src/api/pipelines/worker-tasks/worker-tasks.dispatcher.service.ts:99-192` | On any tables in which the order is the one found for its site: its dispatch starts task, order and site and queues the job, or leaves all three failed and the queue as it was, if the site is Configured or DeployFailed; nothing changes otherwise. |
| `DispatchEffects.EligibleStartsIff` | `src/api/pipelines/site-orders/site-orders.logic.service.ts:237-257` | A PENDING deploy order is eligible for selection if and only if its dispatch starts it. |
| `DispatchEffects.PostsDispatch` | `src/api/pipelines/worker-tasks/worker-tasks.dispatcher.service.ts:194-288` | In every reachable state: if the newest site is settled, one new task runs exactly the posts of the user that wait and its job is queued, or task and posts are failed and the queue is as it was; otherwise nothing changes. |
| `DispatchEffects.PublishDispatch` | `src/api/pipelines/worker-tasks/worker-tasks.dispatcher.service.ts:307-418` | In every reachable state: the next publish of the pair runs with its unpublished orders, their unpublished posts, any post that carried the task, and the site, and its job is queued, or all these are failed and the queue is as it was. |
| `DispatchEffects.OldestIsChosen` | `src/api/pipelines/worker-tasks/worker-tasks.dispatcher.service.ts:740-806` | The three minima and their comparison give the oldest eligible order, ties in the order deploy, publish, post, and none exactly when no order is eligible or the oldest is a post of user 0. |
| `Creation.RowsInCreationOrder` | `src/api/pipelines/site-orders/publish-site-orders.base.service.ts:39-48` | In every reachable state posts, deploy orders and publish orders are in the order of their creation times, and none is newer than the clock, so the newest row of a table is its last. |
| `Creation.NewOrderIsYoungest` | `src/api/pipelines/site-orders/site-orders.logic.service.ts:161-188` | A publish order created now is not older than any order or post in the tables. |
| `Batches.SweepTakesWaiting` | `src/api/pipelines/post-tasks/post-tasks.logic.service.ts:58-76` | The sweep stamps exactly the user's submit-PENDING posts with the id of the new task. |
| `Batches.ChosenIsSwept` | `src/api/pipelines/worker-tasks/worker-tasks.dispatcher.service.ts:784-806` | The chosen post order is in the batch it triggers, whatever happens before the sweep, unless that very post is failed meanwhile. |
| `Batches.RunBatch` | `src/api/pipelines/post-orders/post-orders.logic.service.ts:498-558` | While its post task runs, a batch loses exactly the posts that are hit one by one: reported, certificate lost, or retried after a failed certificate or submission. |
| `Batches.BatchConservation` | `src/api/pipelines/post-orders/post-orders.logic.service.ts:498-514` | From the marking to the end, over any run: the posts that finishSubmitPost finishes (and gives the publish order) or failSubmitPostByPostTaskId fails are exactly those that carried the id at the marking less those hit since; every other post keeps its row. |
| `Batches.SweptPostsFinish` | `src/api/pipelines/post-tasks/post-tasks.logic.service.ts:43-127` | From the sweep to the end: only posts that were submit-PENDING at the sweep are finished, and of these all that were neither retried before the marking nor hit after it. |
| `Carrying.LinkedOrders` | `src/api/pipelines/site-orders/site-orders.logic.service.ts:296-325` | linkOrGenerate leaves exactly the PENDING and FAILED publish orders of the pair on the task, and that task is the one found by state PENDING. |
| `Carrying.DispatchCarries` | `src/api/pipelines/site-orders/site-orders.logic.service.ts:301-313` | Linking and marking together: every PENDING or FAILED publish order of the pair runs under the one task, every post pointing at one of them with publishState PENDING or FAILED is being published under it, so is a post that carried the task before, and nothing else changes. |
| `Carrying.RunLoad` | `src/api/pipelines/post-orders/post-orders.logic.service.ts:640-651` | While a publish runs, its orders stay exactly the same and its posts stay except those dropped by a report, a lost certificate, a retry or the failure of a batch they are in. |
| `Carrying.PublishSettlesCarried` | `src/api/pipelines/post-orders/post-orders.logic.service.ts:653-708` | From the marking to the end: exactly the orders that carried the task at the marking become FINISHED (or FAILED), with every post that carried it and was not dropped. |
| `Carrying.OwedOrdersFinish` | `src/api/pipelines/site-orders/site-orders.logic.service.ts:344-375` | Every order of the pair that was PENDING or FAILED when the dispatcher linked is FINISHED when the publish succeeds, whatever happens between the steps: earlier publish failures need no retry of their own. |
| `EventOrder.LinkTwice` | `src/api/pipelines/site-tasks/site-tasks.logic.service.ts:148-172` | linkOrGeneratePublishSiteTask is idempotent on all tables. |
| `EventOrder.LinkAroundFinish` | `src/api/pipelines/site-tasks/site-tasks.logic.service.ts:174-186` | Linking before finishPostTask is invisible once a link follows it, because the order kept for the batch is owed. |
| `EventOrder.HandlerOrderIrrelevant` | `src/api/pipelines/worker-tasks/worker-tasks.dispatcher.service.ts:600-620` | Whether the handler of the link event runs before finishPostTask, after it, twice, or not at all, the publish dispatched next marks the same sites, orders, tasks and posts, and the posts just submitted are among them. |
| `Measure.StepWork` | `src/api/pipelines/worker-tasks/worker-tasks.dispatcher.service.ts:99-418` | Without new requests no step increases the work left, and every step that starts, finishes, fails or follows up a task decreases it, although finishing a deployment or a batch creates a publish order. |
| `Measure.RunsDrain` | `src/api/pipelines/worker-tasks/worker-tasks.dispatcher.service.ts:577-660` | A run without new requests has at most as many effective steps as there is work at its start. |
| `Measure.NoWorkLeft` | `src/api/pipelines/worker-tasks/worker-tasks.dispatcher.service.ts:577-660` | When no work is left no order is PENDING or DOING, no queue holds a job and no follow-up is owed. |
| `OldestFirst.ChoiceIsOldest` | `src/api/pipelines/worker-tasks/worker-tasks.dispatcher.service.ts:740-807` | Three minima read at three times and dispatchOldestOrder choose the least candidate of all three tables by creation time; ties go to deploy, then publish, then post. |
| `OldestFirst.NoChoiceIff` | `src/api/pipelines/worker-tasks/worker-tasks.dispatcher.service.ts:784-787` | Nothing is dispatched exactly when there is no candidate, or when the oldest candidate is a post of user 0. |
| `OldestFirst.NeverOvertaken` | `src/api/pipelines/worker-tasks/worker-tasks.dispatcher.service.ts:710-731` | The same for the dispatcher's steps with any actions in between: an order that was eligible when its table was read is not passed over for a younger one. |
| `OldestFirst.HeadBlocksDispatch` | `src/api/pipelines/worker-tasks/worker-tasks.dispatcher.service.ts:210-221` | When the oldest candidate is a post whose user has no settled site, a whole dispatch changes nothing, so the same post is selected again and no younger order gets its turn. |
| `Scenarios.HeadOfLineBlocks` | `src/api/pipelines/worker-tasks/worker-tasks.dispatcher.service.ts:210-221` | A run from the empty tables into such a state: an eligible deploy order of another user is passed over by every selection. |
| `Overtaking.PublishNeverOvertakes` | `src/api/pipelines/post-orders/post-orders.logic.service.ts:604-651` | In every run that keeps to four guards (a post with publish links is not reported, does not lose its certificate and is not restarted from it; a post task is pointed at a publish order only when all its posts are submitted), a post with a publish order or publish task, or with publishState DOING or FINISHED, has submitState FINISHED. |
| `Overtaking.HarmlessIff` | `src/api/pipelines/post-orders/post-orders.logic.service.ts:299-617` | Step by step the guards are exact: a step of users, handlers, dispatcher or jobs keeps publish links and publish states behind the submission if and only if it keeps to its guard; all other steps always keep them. |
| `Overtaking.OwnReportIsHarmless` | `src/api/pipelines/post-orders/post-orders.logic.service.ts:520-532` | The report of a job on a post of its own batch always keeps to the guard. |
| `Overtaking.EarlyLossIsHarmless` | `src/api/pipelines/post-orders/post-orders.logic.service.ts:408-461` | So do the loss of a certificate before the post is submitted and the retry after it. |
| `WholeBatches.PostsFollowTheirTask` | `src/api/pipelines/post-orders/post-orders.logic.service.ts:485-575` | In runs whose submissions fail as whole batches and whose certificates are settled before submission, every post on a task has the task's state. |
| `WholeBatches.BatchesAreHarmless` | `src/api/pipelines/post-orders/post-orders.logic.service.ts:560-575` | Such runs keep to the four guards. |
| `Scenarios.RetriedSiblingOvertakes` | `src/api/pipelines/post-orders/post-orders.logic.service.ts:604-617` | A run from the empty tables that breaks a guard and ends badly: a post reported by its own job is pointed at the order of a retried sibling, and after its own retry it is published with submitState PENDING. |
| `Scenarios.LateCertificateOvertakes` | `src/api/pipelines/post-orders/post-orders.logic.service.ts:299-330` | Another one: a certificate is lost while its post is being published, the retry keeps the publish links, and the post is published with submitState PENDING. |
| `Ownership.PostsStayWithTheirUsers` | `src/api/pipelines/post-orders/post-orders.logic.service.ts:604-617` | In every reachable state posts point only at publish orders and tasks of their own user, and no user has a post being published while another of his is being submitted. |
| `Ownership.RepointOwnsIff` | `src/api/pipelines/post-tasks/post-tasks.logic.service.ts:129-144` | On any tables a re-pointing keeps the posts with their users exactly when it has no post task, or the posts sharing the post task are all of the order's user. |
| `Ownership.RetryReachesOrderIff` | `src/api/pipelines/post-orders/post-orders.logic.service.ts:351-369` | On any tables: after the retry of a failed publish and its handler the post is PENDING and a further retry is refused; it points at a publish order exactly when it has a post task and its user a site; without a post task the handler changes no post. |
| `Ownership.UnanchoredRetryIff` | `src/api/pipelines/post-orders/post-orders.logic.service.ts:351-369` | In every reachable state the publish retries that end without an order are exactly those of posts without post task, and such a post is still submit-PENDING, so the next sweep of its user stamps it. |
| `Scenarios.UnanchoredRetryIsDropped` | `src/api/pipelines/site-orders/site-orders.logic.service.ts:193-204` | A run from the empty tables with such a retry: nothing is under way at the end, the post is PENDING without an order, and a further retry is refused. |
| `Hanging.NothingIsForgotten` | `src/api/pipelines/post-orders/post-orders.logic.service.ts:604-639` | In every run of harmless steps in which no publish is marked while a half handled retry holds one of its orders, and no re-pointing puts unstamped posts on the linked publish, every submitted post that is not published points at a PENDING or FAILED order of its own user, or its retry is under way towards such an order. |
| `Hanging.CarefulIff` | `src/api/pipelines/site-orders/site-orders.logic.service.ts:193-204` | Step by step these conditions are exact: a step keeps everything that the result rests on if and only if it is harmless and meets its condition. |
| `Hanging.MarkHangsIff` | `src/api/pipelines/worker-tasks/worker-tasks.dispatcher.service.ts:370-384` | The marking of a publish keeps the posts and the half handled retries on open orders if and only if no half handled retry holds an order of the marked task. |
| `Hanging.RepointStampedIff` | `src/api/pipelines/site-orders/site-orders.logic.service.ts:200-204` | A re-pointing while a publish is linked leaves every post of its orders carrying its task if and only if its order is on another task or its unpublished posts carry the task already. |
| `Hanging.RetryGetsLostIff` | `src/api/pipelines/site-orders/site-orders.logic.service.ts:193-204` | A half handled retry, a marking and the end of the publish, the second half of the retry coming before or after the marking: a post of the retry is left unpublished on a FINISHED order if and only if the retry holds an order of the marked task and the post does not carry that task. |
| `Hanging.DispatchTakesWaiting` | `src/api/pipelines/site-tasks/site-tasks.logic.service.ts:148-186` | Over careful runs, from the start through the link of a publish and anything between link and marking, wherever and however often the handlers of the link events run: every submitted, unpublished post that at the marking points at an order that was PENDING or FAILED at the link is being published, and so is its order. |
| `Stuck.StuckIff` | `src/api/pipelines/post-orders/post-orders.logic.service.ts:299-385` | A submitted post that is PENDING on a FINISHED order and carries no publish task to come stays so under a step if and only if the step is not a report naming it, the loss of its certificate, or a re-pointing of its post task to an order that is not FINISHED. |
| `Stuck.StuckForGood` | `src/api/pipelines/post-orders/post-orders.logic.service.ts:299-385` | Over all runs: such a post stays PENDING on a FINISHED order and every retry of it is refused as long as none of these steps comes. |
| `Scenarios.RetryGetsLost` | `src/api/pipelines/site-orders/site-orders.logic.service.ts:193-204` | A run from the empty tables into that state: everything is in order up to the marking, nothing is under way at the end, and the post is stuck. |
| `PostCounts.CountUserPostOrders` | `src/api/pipelines/post-orders/post-orders.logic.service.ts:103-112` | The record made of the grouped rows has, for every state, the number of the user's posts in it. |
| `PostCounts.CountUserPostOrdersAsNotification` | `src/api/pipelines/post-orders/post-orders.logic.service.ts:114-129` | publishingCount and publishedCount are the sizes of the two filter queries, the alert flag tells failed posts, and allPostCount is the number of the user's posts with a publish state and the sum of publishing, published and failed. |
| `PostCounts.CountsSplit` | `src/api/pipelines/post-orders/post-orders.base.service.ts:88-96` | The publish states split the user's posts that have one. |
| `CommaList.JoinSplit` | `src/api/pipelines/worker-tasks/worker-tasks.dispatcher.service.ts:245-251` | Splitting any string at commas and joining it again is the identity. |
| `CommaList.SplitJoin` | `src/api/management/migrate/postOrder.processor.ts:187-189` | Joining comma-free items and splitting again is the identity for every non-empty list. |
| `CommaList.StoreReadIff` | `src/api/management/migrate/postOrder.processor.ts:187-189` | A list survives storing with toString and reading with the empty check and split exactly when its items are comma-free and it is not the list of one empty string. |
| `CommaList.ReadStore` | `src/api/pipelines/worker-tasks/worker-tasks.dispatcher.service.ts:245-251` | Every stored string survives reading and storing. |
| `CommaList.ArrayUnique` | `src/decorators/validator.ts:32-34` | True exactly for lists without repeated items. |
| `CommaList.Validate` | `src/decorators/validator.ts:26-42` | Accepts exactly the strings that split into at most arrayMax distinct items of at most itemMax characters; other values are refused. |
| `CommaList.AcceptedIsBounded` | `src/api/pipelines/dto/post-order.dto.ts:70-74` | An accepted string has at most n*m + n - 1 characters. |
| `CommaList.BoundIsTight` | `src/api/pipelines/dto/post-order.dto.ts:117-121` | That length is reached, so the maximal lengths are exactly 203 for (4, 50) and 509 for (10, 50). |
| `CommaList.AcceptedIsRead` | `src/decorators/validator.ts:26-42` | What is accepted is read back as at most arrayMax distinct, bounded, comma-free items that store to the same string. |
| `StepChain.StepOk` | `src/api/task/workers/task-dispatchers.service.ts:103-117` | The promise, resolve and reject maps always have equal key sets, namely the tasks that are not over; each of these has exactly one job, whose index is in bounds, whose method is the step at the index and whose results are keyed by the steps before it. |
| `StepChain.ChainRefinesSequence` | `src/api/task/workers/task-dispatchers.service.ts:71-101` | For any step list, any outcomes and any interleaving with other tasks, the methods that ran are a prefix of the steps in order (all of them on success), the progress is that of the sequential run with these outcomes, and the promise holds its verdict unless the timeout came first. |
| `StepChain.ProceedFits` | `src/api/task/workers/task-dispatchers.service.ts:71-101` | One more outcome extends the prefix of methods that ran by one, so a chain has at most as many outcomes as steps. |
| `StepChain.CollectedKeys` | `src/api/task/workers/task-dispatchers.service.ts:72-72` | The results of a chain are keyed by exactly the completed methods. |
| `StepChain.CollectedLast` | `src/api/task/workers/task-dispatchers.service.ts:72-72` | A repeated method keeps the result of its last completion. |
| `StepChain.SettledOnce` | `src/api/task/workers/task-dispatchers.service.ts:103-111` | A settled promise never changes, and the callbacks of a task that is over are gone and are not called again. |
| `StepChain.ExpireEffect` | `src/api/task/workers/task-dispatchers.service.ts:47-50` | After an hour a promise that is still open holds the timeout; a settled one keeps its verdict, and nothing else changes. |
| `StepChain.TimeoutIff` | `src/api/task/workers/task-dispatchers.service.ts:44-53` | Over any run a promise ends up timed out if and only if its hour passed while it was open. |
| `StepChainService.TaskDispatchers.RegisterTaskMethods` | `src/api/task/workers/task-workers.service.ts:169-173` | The registry after a worker registered its methods. |
| `StepChainService.RegisteredLast` | `src/api/task/workers/task-workers.service.ts:159-173` | A method belongs to the worker that registered it last; other methods keep theirs. |
| `StepChainService.TaskDispatchers.DispatchTask` | `src/api/task/workers/task-dispatchers.service.ts:31-69` | A new promise with both callbacks, then the first method is handed to its worker. |
| `StepChainService.TaskDispatchers.NextTaskStep` | `src/api/task/workers/task-dispatchers.service.ts:71-101` | Stores the result, then goes on with the next step or resolves the task, changing the configuration in place. |
| `StepChainService.TaskDispatchers.InvokeTaskMethod` | `src/api/task/workers/task-dispatchers.service.ts:122-136` | Rejects the task for a missing method or worker, else adds a job. |
| `StepChainService.TaskDispatchers.Settle` | `src/api/task/workers/task-dispatchers.service.ts:44-53` | A promise keeps the first verdict it is given. |
| `Store.Database.BatchUpdatePosts` | `src/api/pipelines/post-orders/post-orders.base.service.ts:111-116` | The loop changes exactly the rows that match the condition. |
| `Store.Database.BatchUpdateOrders` | `src/api/pipelines/site-orders/publish-site-orders.base.service.ts:77-82` | The loop changes exactly the rows that match the condition. |
| `Store.Database.BatchUpdatePostTasks` | `src/api/pipelines/post-tasks/post-tasks.logic.service.ts:154-160` | The loop sets the publish task of exactly the post tasks whose order is in the set. |
| `Store.Database.UpdateByDeploySiteTaskId` | `src/api/pipelines/site-orders/deploy-site-orders.base.service.ts:61-69` | The loop sets the state of exactly the orders of the task. |
| `Store.Database.GetUserDefaultSite` | `src/api/site/config/logicService.ts:74-89` | The user's newest site, or none. |
| `Store.Database.GetDeployOrder` | `src/api/pipelines/site-orders/deploy-site-orders.base.service.ts:22-30` | The deploy order of the pair, or none. |
| `Store.Database.GetPendingOrder` | `src/api/pipelines/site-orders/publish-site-orders.base.service.ts:39-48` | The newest PENDING publish order of the pair, or none. |
| `Store.Database.GetLatestTask` | `src/api/pipelines/site-tasks/publish-site-tasks.base.service.ts:22-38` | The newest publish task of the pair, or none. |
| `Store.Database.GetPendingTask` | `src/api/pipelines/site-tasks/publish-site-tasks.base.service.ts:39-57` | The newest PENDING publish task of the pair, or none. |
| `Store.Database.GetOrderIds` | `src/api/pipelines/site-orders/publish-site-orders.base.service.ts:65-69` | The ids of exactly the orders that carry the task. |
| `Store.Database.IsQuiet` | `src/api/pipelines/site-orders/site-orders.logic.service.ts:277-288` | True exactly when none of the user's posts is being submitted or published and none of his publish orders is DOING. |
| `Store.Database.GetFirstPendingDeploySiteOrder` | `src/api/pipelines/site-orders/site-orders.logic.service.ts:237-257` | An eligible deploy order that no eligible one is older than, or none if there is none. |
| `Store.Database.GetFirstPendingPublishSiteOrder` | `src/api/pipelines/site-orders/site-orders.logic.service.ts:258-294` | An eligible publish order that no eligible one is older than, or none if there is none. |
| `Store.Database.GetFirstPendingPostOrder` | `src/api/pipelines/post-orders/post-orders.logic.service.ts:56-80` | An eligible post order that no eligible one is older than, or none if there is none. |
| `LogicServices.PostOrdersService.RetryPostOrder` | `src/api/pipelines/post-orders/post-orders.logic.service.ts:299-385` | Restarts from the certificate, the submission or the publish, whichever failed, changing exactly the named fields of the row; refuses a foreign, missing or healthy post. |
| `LogicServices.PostOrdersService.RetryUserFailedPostOrders` | `src/api/pipelines/post-orders/post-orders.logic.service.ts:197-207` | Every post of the user whose publish state is FAILED restarts, with exactly the named fields changed and a failed publish with its event; no other post and no other table changes. |
| `LogicServices.PostOrdersService.HandleCertificate` | `src/api/pipelines/post-orders/post-orders.logic.service.ts:408-461` | At most two uploads: with one that succeeds the row is certified and FINISHED, with two that fail its three states are FAILED; no other field but the storage type changes, and nothing without a storage type. |
| `LogicServices.SiteOrdersService.EndRetry` | `src/api/pipelines/site-orders/site-orders.logic.service.ts:200-204` | Second half of the retry event's handler: task and posts point at the order, or, without a post task, the first update is refused and no row changes. |
| `DispatcherService.WorkerTasksDispatcher.ChooseOldest` | `src/api/pipelines/worker-tasks/worker-tasks.dispatcher.service.ts:740-806` | The minimum of the creation times decides, ties in the order deploy, publish, post. |
| `DispatcherService.WorkerTasksDispatcher.DispatchDeploySiteTask` | `src/api/pipelines/worker-tasks/worker-tasks.dispatcher.service.ts:99-192` | The whole deploy dispatch is a run of the dispatcher's steps that ends idle; in a reachable state order, site and one new task run and the job is queued, or all three are failed if there is no configuration. |
| `DispatcherService.WorkerTasksDispatcher.DispatchCreatePostsTask` | `src/api/pipelines/worker-tasks/worker-tasks.dispatcher.service.ts:194-288` | The whole post dispatch is such a run; in a reachable state with a settled newest site all waiting posts of the user run under one new task whose job is queued, or task and posts are failed if there is no configuration; otherwise nothing changes. |
| `DispatcherService.WorkerTasksDispatcher.DispatchPublishSiteTask` | `src/api/pipelines/worker-tasks/worker-tasks.dispatcher.service.ts:307-418` | The whole publish dispatch is such a run; in a reachable state the next publish of the pair runs with all it owes and its job is queued, or all is failed if there is no configuration. |
| `DispatcherService.WorkerTasksDispatcher.DispatchOldestOrder` | `src/api/pipelines/worker-tasks/worker-tasks.dispatcher.service.ts:740-807` | The dispatch of the chosen order is such a run with the effect of its kind. |
| `DispatcherService.WorkerTasksDispatcher.ReadCounts` | `src/api/pipelines/worker-tasks/worker-tasks.dispatcher.service.ts:710-716` | The two readings are such a run and give permission exactly below the limit. |
| `DispatcherService.WorkerTasksDispatcher.SelectOldest` | `src/api/pipelines/worker-tasks/worker-tasks.dispatcher.service.ts:717-731` | The three selections and the comparison choose the oldest eligible order and change nothing but the phase; they are a run of the dispatcher's steps. |
| `DispatcherService.WorkerTasksDispatcher.DispatchNextTask` | `src/api/pipelines/worker-tasks/worker-tasks.dispatch-next.consumer.service.ts:34-43` | dispatchNextTask without interruption, in a reachable state: below the limit the oldest eligible order is dispatched, with its rows DOING on a task whose job is queued, or FAILED without a configuration; with no room or no candidate nothing changes. It is a run of the dispatcher's steps that ends idle in a state that keeps the invariant. |

## Left out

- Manual worker-task endpoints, `hasTaskInProgress` and `autoFailed`: they bypass the guards of the orders.
- The repair of a site that has been Publishing for ten minutes: the selection never offers such a site, so its
  branch is modelled as a refusal.
- When certificates settle: the sweep takes waiting posts whatever their certificate, so an upload is a step that
  may come at any time.
- Progress of a single order: it does not hold (Scenarios.HeadOfLineBlocks), so drainage is stated as a bound on
  effective steps.
- Overtaking.PublishNeverOvertakes: holds for runs that keep to the four guards, because it fails otherwise
  (Scenarios.RetriedSiblingOvertakes, Scenarios.LateCertificateOvertakes); Overtaking.HarmlessIff gives the exact
  condition on a step.
- Hanging.NothingIsForgotten: holds for runs of careful steps, because otherwise a retry can get lost
  (Scenarios.RetryGetsLost); Hanging.CarefulIff gives the exact condition on a step.
- LogicServices.PostOrdersService.SavePostOrder: the refusal of a signature that is already stored and the retry of the
  user's failed posts that follows a new post are not part of it; that retry is modelled by itself
  (LogicServices.PostOrdersService.RetryUserFailedPostOrders), and in the state machine as retries that may come at any
  time.
- EventOrder.HandlerOrderIrrelevant: compares whole tables with nothing between link, finishPostTask and dispatch. With
  other actions in between the tables can differ, in the numbers of publish tasks created for other sites already;
  what holds then is Hanging.DispatchTakesWaiting.
- LogicServices.SiteTasksService.StartDeploySiteTask: creation, linking and marking of a deploy task are one step of the
  state machine, because no other step reads the rows in between.
- LogicServices.PostOrdersService.SetPublishState: the doing, finish and fail variants differ in the state only and are
  one method; the messages to the user interface are not modelled.
- StepChainService.TaskDispatchers.DispatchTask: the lookup of the task workspace and its refusal when none is available
  are not modelled.
- The task workspace lock, its lifetime and renewal: it is a shared key and depends on timing.
- DNS and domain updates, git hosting, containers, permanent storage, signatures, user lookup: replaced by
  nondeterministic outcomes.
- Controllers, guards, configuration, logging, real-time messages, migrations, provider management, domain prefixes.
- Post metadata other than tags and categories, and the wording of validation messages.

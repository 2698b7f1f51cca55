/** Oldest first: three separate minima and their comparison choose the oldest of all eligible orders,
    although the three tables are read at three different times. */
module OldestFirst {
  import opened PipelineTypes
  import opened Tables
  import opened Pipeline
  import opened Invariants
  import opened Runs
  import opened History

  /** An order that was eligible when its table was read: deploy orders in db1, publish orders in db2,
      post orders in db3. */
  ghost predicate Candidate(db1: Db, db2: Db, db3: Db, c: Choice) {
    match c
    case Deploy(d) => DeployEligible(db1, d)
    case Publish(o) => PublishEligible(db2, o)
    case Submit(p) => PostEligible(db3, p)
    case NoOrder => false
  }

  /** When the candidate was created; rows never change that, so the last state tells. */
  function CreatedAt(db: Db, c: Choice): int {
    match c
    case Deploy(d) => if 0 <= d < |db.deployOrders| then db.deployOrders[d].createdAt else NONE
    case Publish(o) => if 0 <= o < |db.publishOrders| then db.publishOrders[o].createdAt else NONE
    case Submit(p) => if 0 <= p < |db.posts| then db.posts[p].createdAt else NONE
    case NoOrder => NONE
  }

  function Rank(c: Choice): nat {
    match c case Deploy(_) => 0 case Publish(_) => 1 case Submit(_) => 2 case NoOrder => 3
  }

  /** Older, or as old and of a kind that goes first. */
  predicate NotAfter(db: Db, a: Choice, b: Choice) {
    CreatedAt(db, a) < CreatedAt(db, b) || (CreatedAt(db, a) == CreatedAt(db, b) && Rank(a) <= Rank(b))
  }

  lemma SameCreation(a: Db, b: Db, c: Choice)
    requires Settles(a, b) && CreatedAt(a, c) != NONE
    ensures CreatedAt(b, c) == CreatedAt(a, c)
  {
  }

  /** The three minima taken together. */
  ghost predicate Selected(db1: Db, db2: Db, db3: Db, d: int, o: int, p: int) {
    FirstDeploy(db1, d) && FirstPublish(db2, o) && FirstPost(db3, p) && Settles(db1, db2) && Settles(db2, db3)
  }

  /** The least candidate of each table is not after any candidate of that table. */
  lemma FirstOfItsKind(db1: Db, db2: Db, db3: Db, d: int, o: int, p: int, c: Choice)
    requires Selected(db1, db2, db3, d, o, p) && Candidate(db1, db2, db3, c)
    ensures match c
            case Deploy(_) => d != NONE && CreatedAt(db3, Deploy(d)) <= CreatedAt(db3, c)
            case Publish(_) => o != NONE && CreatedAt(db3, Publish(o)) <= CreatedAt(db3, c)
            case Submit(_) => p != NONE && CreatedAt(db3, Submit(p)) <= CreatedAt(db3, c)
            case NoOrder => false
  {
    SettlesTransitive(db1, db2, db3);
    hide Quiet, Settles;
    match c
    case Deploy(_) => SameCreation(db1, db3, c); SameCreation(db1, db3, Deploy(d));
    case Publish(_) => SameCreation(db2, db3, c); SameCreation(db2, db3, Publish(o));
    case Submit(_) =>
  }

  /** The choice is the oldest candidate of all; among equally old ones a deploy order goes before a
      publish order, and that before a post. */
  lemma ChoiceIsOldest(db1: Db, db2: Db, db3: Db, d: int, o: int, p: int)
    requires Selected(db1, db2, db3, d, o, p)
    requires NONE <= d < |db3.deployOrders| && NONE <= o < |db3.publishOrders| && NONE <= p < |db3.posts|
    requires Oldest(db3, d, o, p) != NoOrder
    ensures Candidate(db1, db2, db3, Oldest(db3, d, o, p))
    ensures forall c :: Candidate(db1, db2, db3, c) ==> NotAfter(db3, Oldest(db3, d, o, p), c)
  {
    forall c | Candidate(db1, db2, db3, c) ensures NotAfter(db3, Oldest(db3, d, o, p), c) {
      FirstOfItsKind(db1, db2, db3, d, o, p, c);
    }
  }

  /** Nothing is chosen exactly when there is no candidate at all, or when the oldest candidate is a post
      of user 0, older than every deploy and publish candidate. */
  lemma NoChoiceIff(db1: Db, db2: Db, db3: Db, d: int, o: int, p: int)
    requires Selected(db1, db2, db3, d, o, p)
    requires NONE <= d < |db3.deployOrders| && NONE <= o < |db3.publishOrders| && NONE <= p < |db3.posts|
    ensures Oldest(db3, d, o, p) == NoOrder <==>
      (forall c :: !Candidate(db1, db2, db3, c)) ||
      (p != NONE && db3.posts[p].user == 0 &&
       forall c :: Candidate(db1, db2, db3, c) && !c.Submit? ==> CreatedAt(db3, Submit(p)) < CreatedAt(db3, c))
  {
    forall c | Candidate(db1, db2, db3, c)
      ensures match c
              case Deploy(_) => d != NONE && CreatedAt(db3, Deploy(d)) <= CreatedAt(db3, c)
              case Publish(_) => o != NONE && CreatedAt(db3, Publish(o)) <= CreatedAt(db3, c)
              case Submit(_) => p != NONE && CreatedAt(db3, Submit(p)) <= CreatedAt(db3, c)
              case NoOrder => false
    {
      FirstOfItsKind(db1, db2, db3, d, o, p, c);
    }
    assert d != NONE ==> Candidate(db1, db2, db3, Deploy(d));
    assert o != NONE ==> Candidate(db1, db2, db3, Publish(o));
    assert p != NONE ==> Candidate(db1, db2, db3, Submit(p));
    hide Selected, Candidate;
  }

  lemma InRange(db: Db, d: int, o: int, p: int)
    ensures FirstDeploy(db, d) ==> NONE <= d < |db.deployOrders|
    ensures FirstPublish(db, o) ==> NONE <= o < |db.publishOrders|
    ensures FirstPost(db, p) ==> NONE <= p < |db.posts|
  {
  }

  /** The dispatcher's three reads with anything else happening in between: an order that was eligible
      when its table was read is not passed over for a younger one. */
  lemma NeverOvertaken(s1: State, d: int, first: seq<Action>, s2: State, o: int, second: seq<Action>, s3: State, p: int)
    requires Reachable(s1) && DispatcherEnabled(s1, APickDeploy(d))
    requires IsRun(PickDeploy(s1, d), first) && s2 == After(PickDeploy(s1, d), first)
    requires DispatcherEnabled(s2, APickPublish(o)) && s2.phase == DeployPicked(d)
    requires IsRun(PickPublish(s2, o), second) && s3 == After(PickPublish(s2, o), second)
    requires DispatcherEnabled(s3, APickPost(p)) && s3.phase == PublishPicked(d, o)
    ensures var chosen := PickPost(s3, p).phase;
            (chosen == Idle || chosen.Chosen?) &&
            (chosen.Chosen? ==>
              Candidate(s1.db, s2.db, s3.db, chosen.choice) &&
              forall c :: Candidate(s1.db, s2.db, s3.db, c) ==> NotAfter(s3.db, chosen.choice, c))
  {
    hide Reachable, Inv, Settles, Candidate, NotAfter, FirstDeploy, FirstPublish, FirstPost, Oldest, IsRun, After;
    ReachableInv(s1);
    InRange(s3.db, d, o, p);
    PickInv(s1, d);
    RunInv(PickDeploy(s1, d), first);
    RunSettles(PickDeploy(s1, d), first);
    StepInv(s2, Dispatcher(APickPublish(o)));
    RunSettles(PickPublish(s2, o), second);
    if Oldest(s3.db, d, o, p) != NoOrder {
      ChoiceIsOldest(s1.db, s2.db, s3.db, d, o, p);
    }
  }

  lemma PickInv(s: State, d: int)
    requires Inv(s) && DispatcherEnabled(s, APickDeploy(d))
    ensures Inv(PickDeploy(s, d))
  {
    hide Inv, FirstDeploy;
    StepInv(s, Dispatcher(APickDeploy(d)));
  }

  /** The steps of a dispatch that ends with the refusal of a post. */
  function RefusedDispatch(d: int, o: int, p: int): seq<Action> {
    [Dispatcher(AReadActive), Dispatcher(AReadWaiting), Dispatcher(APickDeploy(d)), Dispatcher(APickPublish(o)),
     Dispatcher(APickPost(p)), Dispatcher(ASweep)]
  }

  /** When the oldest candidate is a post whose user has no settled site, a whole dispatch changes nothing
      at all: the next one selects the same post again, and no younger order gets its turn. */
  lemma HeadBlocksDispatch(s: State, d: int, o: int, p: int)
    requires s.phase == Idle && |s.active| + |s.waiting| < s.wipLimit
    requires FirstDeploy(s.db, d) && FirstPublish(s.db, o) && FirstPost(s.db, p)
    requires NONE <= d < |s.db.deployOrders| && NONE <= o < |s.db.publishOrders| && 0 <= p < |s.db.posts|
    requires Oldest(s.db, d, o, p) == Submit(p)
    requires var site := DefaultSite(s.db.sites, s.db.posts[p].user);
             site == NONE || !Settled(s.db.sites[site].status)
    ensures IsRun(s, RefusedDispatch(d, o, p)) && After(s, RefusedDispatch(d, o, p)) == s
  {
    hide Enabled, Next, IsRun, After, FirstDeploy, FirstPublish, FirstPost, Oldest;
    RefusedSteps(s, d, o, p);
    var a1, a2, a3 := Dispatcher(AReadActive), Dispatcher(AReadWaiting), Dispatcher(APickDeploy(d));
    var a4, a5, a6 := Dispatcher(APickPublish(o)), Dispatcher(APickPost(p)), Dispatcher(ASweep);
    var s1 := s.(phase := ActiveRead(|s.active|));
    var s2 := s.(phase := Permitted);
    var s3 := s.(phase := DeployPicked(d));
    var s4 := s.(phase := PublishPicked(d, o));
    var s5 := s.(phase := Chosen(Submit(p)));
    NoStep(s);
    RunCons(s5, a6, [], [a6]);
    RunCons(s4, a5, [a6], [a5, a6]);
    RunCons(s3, a4, [a5, a6], [a4, a5, a6]);
    RunCons(s2, a3, [a4, a5, a6], [a3, a4, a5, a6]);
    RunCons(s1, a2, [a3, a4, a5, a6], [a2, a3, a4, a5, a6]);
    RunCons(s, a1, [a2, a3, a4, a5, a6], RefusedDispatch(d, o, p));
  }

  lemma RefusedSteps(s: State, d: int, o: int, p: int)
    requires s.phase == Idle && |s.active| + |s.waiting| < s.wipLimit
    requires FirstDeploy(s.db, d) && FirstPublish(s.db, o) && FirstPost(s.db, p)
    requires NONE <= d < |s.db.deployOrders| && NONE <= o < |s.db.publishOrders| && 0 <= p < |s.db.posts|
    requires Oldest(s.db, d, o, p) == Submit(p)
    requires var site := DefaultSite(s.db.sites, s.db.posts[p].user);
             site == NONE || !Settled(s.db.sites[site].status)
    ensures var s1 := s.(phase := ActiveRead(|s.active|));
            var s2 := s.(phase := Permitted);
            var s3 := s.(phase := DeployPicked(d));
            var s4 := s.(phase := PublishPicked(d, o));
            var s5 := s.(phase := Chosen(Submit(p)));
            Enabled(s, Dispatcher(AReadActive)) && Next(s, Dispatcher(AReadActive)) == s1 &&
            Enabled(s1, Dispatcher(AReadWaiting)) && Next(s1, Dispatcher(AReadWaiting)) == s2 &&
            Enabled(s2, Dispatcher(APickDeploy(d))) && Next(s2, Dispatcher(APickDeploy(d))) == s3 &&
            Enabled(s3, Dispatcher(APickPublish(o))) && Next(s3, Dispatcher(APickPublish(o))) == s4 &&
            Enabled(s4, Dispatcher(APickPost(p))) && Next(s4, Dispatcher(APickPost(p))) == s5 &&
            Enabled(s5, Dispatcher(ASweep)) && Next(s5, Dispatcher(ASweep)) == s
  {
    hide FirstDeploy, FirstPublish, FirstPost, Oldest;
  }
}

/**
 * What one run of the scheduler guarantees, and what two runs in a row
 * guarantee, stated over the `Schedule` function.
 */
module DecisionProperties {
  import opened Wrappers
  import opened TimeParse
  import opened Windows
  import opened Config
  import opened Inventory
  import opened Decision

  /** `disabled` comes before any clock, inventory or API work, whatever the world. */
  lemma {:induction false} DisabledShortCircuits(c: ConfigRecord, world: World)
    requires !Enabled(c)
    ensures Schedule(c, world) == Execution(Ok(Disabled), [])
  {
  }

  /** A record without the `enabled` key is enabled. */
  lemma {:induction false} MissingEnabledMeansEnabled(c: ConfigRecord)
    requires c.enabled == None
    ensures Enabled(c)
  {
  }

  /**
   * Discovery keeps exactly the inventory instances whose id is not
   * excluded; so no excluded id is ever discovered.
   */
  lemma {:induction false} DiscoveryIsInventoryMinusExcluded(c: ConfigRecord, world: World, x: Instance)
    requires c.tagKey.Some? && c.tagValue.Some?
    requires world.describe(c.tagKey.value, c.tagValue.value).Reservations?
    ensures Discovery(c, world).Ok?
    ensures x in Discovery(c, world).value <==>
      x in Flatten(world.describe(c.tagKey.value, c.tagValue.value).reservations) && x.id !in ExcludedIds(c)
  {
  }

  /** An empty discovery, including a failed inventory query, ends the run with `no_instances` and no calls. */
  lemma {:induction false} EmptyDiscoveryMeansNoInstances(c: ConfigRecord, world: World)
    requires Enabled(c) && world.localTime(ZoneName(c)).At?
    requires Discovery(c, world) == Ok([])
    ensures Schedule(c, world) == Execution(Ok(NoInstances), [])
  {
  }

  /** When the `default` record is missing or unreadable, discovery queries the fleet `Env=Dev` and excludes nothing. */
  lemma {:induction false} FallbackQueriesEnvDev(read: StoreRead, world: World)
    requires !read.Found?
    ensures Discovery(LoadConfig(read), world) ==
      match world.describe("Env", "Dev")
      case DescribeFailed => Ok([])
      case Reservations(rs) => Ok(Flatten(rs))
  {
    FallbackSchedule(read);
    if world.describe("Env", "Dev").Reservations? {
      NothingExcludedKeepsAll(Flatten(world.describe("Env", "Dev").reservations));
    }
  }

  /**
   * Every mutation call names exactly the discovered instances that are in
   * the wrong state for its verb, in discovery order, and none of them is
   * excluded.
   */
  lemma {:induction false} ActsOnlyOnWrongState(c: ConfigRecord, world: World, e: Effect)
    requires e in Schedule(c, world).effects && e.ApiCall?
    ensures Discovery(c, world).Ok?
    ensures e.ids == IdsInState(Discovery(c, world).value, e.verb.Wrong())
    ensures forall id :: id in e.ids ==>
      id !in ExcludedIds(c) &&
      exists i :: 0 <= i < |Discovery(c, world).value| &&
        Discovery(c, world).value[i].id == id && Discovery(c, world).value[i].state == e.verb.Wrong()
  {
    EffectsOnlyWhenActed(c, world);
    ActedRunFacts(c, world);
    var r := Schedule(c, world).outcome.value;
    var xs := Discovery(c, world).value;
    ScheduleReachesBranch(c, world, r.currentTime, xs, r.actions[0].verb);
    ReconcileCallsWrongState(c, world, r.actions[0].verb, r.currentTime, xs);
    forall id | id in e.ids ensures id !in ExcludedIds(c) {
      var i :| 0 <= i < |xs| && xs[i].id == id && xs[i].state == e.verb.Wrong();
      assert xs[i] in xs;
    }
  }

  /**
   * Which action a completed run records follows the windows: start only
   * when the start window holds, stop only when the stop window holds and
   * the start window does not.
   */
  lemma {:induction false} ActionFollowsWindows(c: ConfigRecord, world: World)
    requires Schedule(c, world).outcome.Ok? && Schedule(c, world).outcome.value.Completed?
    ensures var r := Schedule(c, world).outcome.value;
      forall a :: a in r.actions ==>
        && (a.verb == Start ==> ShouldStart(c, r.currentTime) == Ok(true))
        && (a.verb == Stop ==> ShouldStart(c, r.currentTime) == Ok(false) && ShouldStop(c, r.currentTime) == Ok(true))
  {
  }

  /**
   * Conversely, a run acts whenever it is due: with instances discovered,
   * a window selected and some instance in the wrong state for it, the run
   * records exactly one action of that verb, whose lists are the result of
   * `_start_instances`/`_stop_instances` on the wrong-state ids, and unless
   * it is a dry run its first effect is the mutation call on those ids.
   */
  lemma {:induction false} ActsWhenDue(c: ConfigRecord, world: World, now: SecondOfDay, verb: Verb)
    requires Enabled(c) && world.localTime(ZoneName(c)) == At(now)
    requires Discovery(c, world).Ok? && Discovery(c, world).value != []
    requires WindowDecision(c, now) == Ok(Some(verb))
    requires IdsInState(Discovery(c, world).value, verb.Wrong()) != []
    ensures var xs := Discovery(c, world).value;
      var res := ActionOutcome(c, world, verb, IdsInState(xs, verb.Wrong()));
      Schedule(c, world).outcome == Ok(Completed(now, |xs|, [Action(verb, res.success, res.failed)]))
    ensures !DryRun(c) ==>
      Schedule(c, world).effects != [] &&
      Schedule(c, world).effects[0] == ApiCall(verb, IdsInState(Discovery(c, world).value, verb.Wrong()))
  {
    var xs := Discovery(c, world).value;
    ScheduleReachesBranch(c, world, now, xs, verb);
    ReconcileActs(c, world, verb, now, xs);
  }

  /** The start or stop branch acts on the wrong-state ids whenever there are any. */
  lemma {:induction false} ReconcileActs(c: ConfigRecord, world: World, verb: Verb, now: SecondOfDay, xs: seq<Instance>)
    requires IdsInState(xs, verb.Wrong()) != []
    ensures var ids := IdsInState(xs, verb.Wrong());
      var res := ActionOutcome(c, world, verb, ids);
      var e := Reconcile(c, world, verb, now, xs);
      && e.outcome == Ok(Completed(now, |xs|, [Action(verb, res.success, res.failed)]))
      && (!DryRun(c) ==> e.effects != [] && e.effects[0] == ApiCall(verb, ids))
  {
    var ids := IdsInState(xs, verb.Wrong());
    var res := ActionOutcome(c, world, verb, ids);
    var notes := if res.success != [] then NotifyEffects(c, verb, res.success) else [];
    assert Reconcile(c, world, verb, now, xs).effects == ApiCalls(c, verb, ids) + notes;
  }

  /** Inside the start window the stop branch is never taken, whatever the stop window says. */
  lemma {:induction false} StartHasPriority(c: ConfigRecord, world: World, now: SecondOfDay)
    requires Enabled(c) && world.localTime(ZoneName(c)) == At(now)
    requires ShouldStart(c, now) == Ok(true)
    ensures forall e :: e in Schedule(c, world).effects ==> e.verb == Start
    ensures Schedule(c, world).outcome.Ok? && Schedule(c, world).outcome.value.Completed? ==>
      forall a :: a in Schedule(c, world).outcome.value.actions ==> a.verb == Start
  {
    var d := Discovery(c, world);
    if d.Ok? && d.value != [] && WindowDecision(c, now).Ok? {
      assert WindowDecision(c, now) == Ok(Some(Start));
      ScheduleReachesBranch(c, world, now, d.value, Start);
      ReconcileKeepsVerb(c, world, Start, now, d.value);
    }
  }

  /**
   * `no_action` is returned exactly when there are instances and both
   * window tests succeed and are false.
   */
  lemma {:induction false} NoActionExactlyOutsideBothWindows(c: ConfigRecord, world: World)
    ensures
      (Schedule(c, world).outcome.Ok? && Schedule(c, world).outcome.value.NoAction?)
      <==>
      (&& Enabled(c)
       && world.localTime(ZoneName(c)).At?
       && Discovery(c, world).Ok? && Discovery(c, world).value != []
       && ShouldStart(c, world.localTime(ZoneName(c)).second) == Ok(false)
       && ShouldStop(c, world.localTime(ZoneName(c)).second) == Ok(false))
  {
  }

  /** A parse failure of either configured time escapes, even inside the start window. */
  lemma {:induction false} WindowErrorsEscape(c: ConfigRecord, world: World, now: SecondOfDay)
    requires Enabled(c) && world.localTime(ZoneName(c)) == At(now)
    requires Discovery(c, world).Ok? && Discovery(c, world).value != []
    requires ShouldStart(c, now).Err? || ShouldStop(c, now).Err?
    ensures Schedule(c, world).outcome.Err? && Schedule(c, world).effects == []
  {
  }

  /**
   * A dry run never reaches the mutation API, and reports every targeted id
   * as succeeded and none as failed.
   */
  lemma {:induction false} DryRunNeverMutates(c: ConfigRecord, world: World)
    requires DryRun(c)
    ensures forall e :: e in Schedule(c, world).effects ==> e.Notify?
    ensures Schedule(c, world).outcome.Ok? && Schedule(c, world).outcome.value.Completed? ==>
      Discovery(c, world).Ok? &&
      forall a :: a in Schedule(c, world).outcome.value.actions ==>
        a.success == IdsInState(Discovery(c, world).value, a.verb.Wrong()) && a.failed == []
  {
  }

  /**
   * A completed record counts every discovered instance, holds at most one
   * action, and makes at most one mutation call followed by at most one
   * notification attempt; with no action it makes no call at all.
   */
  lemma {:induction false} CompletedRecordShape(c: ConfigRecord, world: World)
    requires Schedule(c, world).outcome.Ok? && Schedule(c, world).outcome.value.Completed?
    ensures Discovery(c, world).Ok?
    ensures Schedule(c, world).outcome.value.totalInstances == |Discovery(c, world).value| > 0
    ensures |Schedule(c, world).outcome.value.actions| <= 1
    ensures Schedule(c, world).outcome.value.actions == [] ==> Schedule(c, world).effects == []
    ensures |Schedule(c, world).effects| <= 2
    ensures forall i, j :: 0 <= i < j < |Schedule(c, world).effects| ==>
      Schedule(c, world).effects[i].ApiCall? && Schedule(c, world).effects[j].Notify?
  {
    assert Enabled(c);
    var now := world.localTime(ZoneName(c)).second;
    var xs := Discovery(c, world).value;
    assert xs != [] && WindowDecision(c, now).Ok? && WindowDecision(c, now).value.Some?;
    var verb := WindowDecision(c, now).value.value;
    ScheduleReachesBranch(c, world, now, xs, verb);
    ReconcileShape(c, world, verb, now, xs);
  }

  /** The shape of every record and effect list the start or stop branch produces. */
  lemma {:induction false} ReconcileShape(c: ConfigRecord, world: World, verb: Verb, now: SecondOfDay, xs: seq<Instance>)
    ensures var e := Reconcile(c, world, verb, now, xs);
      && e.outcome.Ok? && e.outcome.value.Completed?
      && e.outcome.value.totalInstances == |xs|
      && |e.outcome.value.actions| <= 1
      && (e.outcome.value.actions == [] ==> e.effects == [])
      && |e.effects| <= 2
      && forall i, j :: 0 <= i < j < |e.effects| ==> e.effects[i].ApiCall? && e.effects[j].Notify?
  {
    var ids := IdsInState(xs, verb.Wrong());
    if ids != [] {
      var res := ActionOutcome(c, world, verb, ids);
      var calls := ApiCalls(c, verb, ids);
      var notes := if res.success != [] then NotifyEffects(c, verb, res.success) else [];
      assert Reconcile(c, world, verb, now, xs).effects == calls + notes;
      assert forall k :: 0 <= k < |calls| ==> calls[k].ApiCall?;
      assert forall k :: 0 <= k < |notes| ==> notes[k].Notify?;
    }
  }

  /**
   * A notification is attempted only for a recorded action whose success
   * list is non-empty, to the configured topic, about exactly those ids.
   */
  lemma {:induction false} NotifiesOnlyOnSuccess(c: ConfigRecord, world: World, e: Effect)
    requires e in Schedule(c, world).effects && e.Notify?
    ensures NotificationTarget(c) == Some(e.topic)
    ensures e.ids != []
    ensures Schedule(c, world).outcome.Ok? && Schedule(c, world).outcome.value.Completed?
    ensures exists failed :: Schedule(c, world).outcome.value.actions == [Action(e.verb, e.ids, failed)]
  {
    EffectsOnlyWhenActed(c, world);
    ActedRunFacts(c, world);
    var r := Schedule(c, world).outcome.value;
    var xs := Discovery(c, world).value;
    ScheduleReachesBranch(c, world, r.currentTime, xs, r.actions[0].verb);
    ReconcileNotifies(c, world, r.actions[0].verb, r.currentTime, xs);
    assert r.actions == [Action(e.verb, e.ids, r.actions[0].failed)];
  }

  /** The notification of the start or stop branch concerns the recorded action's success list. */
  lemma {:induction false} ReconcileNotifies(c: ConfigRecord, world: World, verb: Verb, now: SecondOfDay, xs: seq<Instance>)
    ensures var e := Reconcile(c, world, verb, now, xs);
      forall f :: f in e.effects && f.Notify? ==>
        && NotificationTarget(c) == Some(f.topic) && f.verb == verb && f.ids != []
        && e.outcome.Ok? && e.outcome.value.Completed? && |e.outcome.value.actions| == 1
        && e.outcome.value.actions[0].success == f.ids && e.outcome.value.actions[0].verb == verb
  {
    var ids := IdsInState(xs, verb.Wrong());
    if ids != [] {
      var res := ActionOutcome(c, world, verb, ids);
      var notes := if res.success != [] then NotifyEffects(c, verb, res.success) else [];
      assert Reconcile(c, world, verb, now, xs).effects == ApiCalls(c, verb, ids) + notes;
    }
  }

  /**
   * Conversely, a recorded action with a non-empty success list and a
   * configured topic always leads to a notification about those ids.
   */
  lemma {:induction false} NotifiesOnSuccess(c: ConfigRecord, world: World, a: Action)
    requires Schedule(c, world).outcome.Ok? && Schedule(c, world).outcome.value.Completed?
    requires a in Schedule(c, world).outcome.value.actions
    requires a.success != [] && NotificationTarget(c).Some?
    ensures Notify(NotificationTarget(c).value, a.verb, a.success) in Schedule(c, world).effects
  {
    ActedRunFacts(c, world);
  }

  /** The notification topic never changes the status record, only whether a notification is attempted. */
  lemma {:induction false} NotificationDoesNotChangeResult(c: ConfigRecord, world: World, topic: Option<string>)
    ensures Schedule(c.(notificationTopic := topic), world).outcome == Schedule(c, world).outcome
  {
    var c' := c.(notificationTopic := topic);
    assert Enabled(c') == Enabled(c) && ZoneName(c') == ZoneName(c) && DryRun(c') == DryRun(c);
    assert Discovery(c', world) == Discovery(c, world);
    forall now: SecondOfDay ensures WindowDecision(c', now) == WindowDecision(c, now) {
    }
  }

  /** What a run that recorded an action has established along the way. */
  lemma {:induction false} ActedRunFacts(c: ConfigRecord, world: World)
    requires Schedule(c, world).outcome.Ok? && Schedule(c, world).outcome.value.Completed?
    requires Schedule(c, world).outcome.value.actions != []
    ensures var r := Schedule(c, world).outcome.value;
      && Enabled(c) && world.localTime(ZoneName(c)) == At(r.currentTime)
      && Discovery(c, world).Ok? && Discovery(c, world).value != []
      && r.totalInstances == |Discovery(c, world).value|
      && WindowDecision(c, r.currentTime) == Ok(Some(r.actions[0].verb))
  {
  }

  /**
   * Convergence: when a run acted and every instance it targeted was
   * reported as changed, a later run whose clock reading still selects the
   * same branch, against the updated inventory, records no action and
   * makes no call.
   */
  lemma {:induction false} RepeatRunAddsNoAction(
    c: ConfigRecord, first: World, second: World,
    now: SecondOfDay, later: SecondOfDay, n: nat, verb: Verb, success: seq<string>, failed: seq<string>)
    requires Schedule(c, first).outcome == Ok(Completed(now, n, [Action(verb, success, failed)]))
    requires Discovery(c, first).Ok?
    requires forall id :: id in IdsInState(Discovery(c, first).value, verb.Wrong()) ==> id in success
    requires second.localTime(ZoneName(c)) == At(later)
    requires WindowDecision(c, later) == Ok(Some(verb))
    requires Discovery(c, second) == Ok(Transition(Discovery(c, first).value, success, verb.Desired()))
    ensures Schedule(c, second) == Execution(Ok(Completed(later, n, [])), [])
  {
    var xs := Discovery(c, first).value;
    ActedRunFacts(c, first);
    var ys := Transition(xs, success, verb.Desired());
    TransitionConverges(xs, success, verb.Wrong(), verb.Desired());
    ScheduleReachesBranch(c, second, later, ys, verb);
  }

  /** A fleet of one stopped and one running instance tagged `Env=Dev`; every API call succeeds in full. */
  function SampleWorld(now: SecondOfDay): World
  {
    World(
      zone => if zone == "Asia/Shanghai" then At(now) else UnknownZone,
      (key, value) =>
        if key == "Env" && value == "Dev"
        then Reservations([[Instance("id1", Stopped), Instance("id2", Running)]])
        else Reservations([]),
      ids => ApiOk(ids),
      ids => ApiOk(ids))
  }

  /** Every effect and every action of the start or stop branch carries that branch's verb. */
  lemma {:induction false} ReconcileKeepsVerb(c: ConfigRecord, world: World, verb: Verb, now: SecondOfDay, xs: seq<Instance>)
    ensures var e := Reconcile(c, world, verb, now, xs);
      && (forall f :: f in e.effects ==> f.verb == verb)
      && e.outcome.Ok? && e.outcome.value.Completed?
      && forall a :: a in e.outcome.value.actions ==> a.verb == verb
  {
    var ids := IdsInState(xs, verb.Wrong());
    if ids != [] {
      var res := ActionOutcome(c, world, verb, ids);
      var notes := if res.success != [] then NotifyEffects(c, verb, res.success) else [];
      assert Reconcile(c, world, verb, now, xs).effects == ApiCalls(c, verb, ids) + notes;
    }
  }

  /** Every effect of a run belongs to a completed run that recorded an action. */
  lemma {:induction false} EffectsOnlyWhenActed(c: ConfigRecord, world: World)
    requires Schedule(c, world).effects != []
    ensures Schedule(c, world).outcome.Ok? && Schedule(c, world).outcome.value.Completed?
    ensures Schedule(c, world).outcome.value.actions != []
  {
  }

  /** The mutation call of the start or stop branch names exactly the instances in the wrong state. */
  lemma {:induction false} ReconcileCallsWrongState(c: ConfigRecord, world: World, verb: Verb, now: SecondOfDay, xs: seq<Instance>)
    ensures forall e :: e in Reconcile(c, world, verb, now, xs).effects && e.ApiCall? ==>
      e.verb == verb && e.ids == IdsInState(xs, verb.Wrong())
  {
    var ids := IdsInState(xs, verb.Wrong());
    if ids != [] {
      var res := ActionOutcome(c, world, verb, ids);
      var notes := if res.success != [] then NotifyEffects(c, verb, res.success) else [];
      assert Reconcile(c, world, verb, now, xs).effects == ApiCalls(c, verb, ids) + notes;
      assert forall k :: 0 <= k < |notes| ==> notes[k].Notify?;
    }
  }

  /** The path through `run` to a failure of the window tests. */
  lemma {:induction false} ScheduleReachesWindowError(c: ConfigRecord, world: World, now: SecondOfDay, xs: seq<Instance>, f: Failure)
    requires Enabled(c) && world.localTime(ZoneName(c)) == At(now)
    requires Discovery(c, world) == Ok(xs) && xs != []
    requires WindowDecision(c, now) == Err(f)
    ensures Schedule(c, world).outcome == Err(f)
  {
  }

  /** The path through `run` to the start or stop branch. */
  lemma {:induction false} ScheduleReachesBranch(c: ConfigRecord, world: World, now: SecondOfDay, xs: seq<Instance>, verb: Verb)
    requires Enabled(c) && world.localTime(ZoneName(c)) == At(now)
    requires Discovery(c, world) == Ok(xs) && xs != []
    requires WindowDecision(c, now) == Ok(Some(verb))
    ensures Schedule(c, world) == Reconcile(c, world, verb, now, xs)
  {
  }

  /** A branch whose single API call changes every requested instance, with nobody to notify. */
  lemma {:induction false} ReconcileFullSuccess(c: ConfigRecord, world: World, verb: Verb, now: SecondOfDay, xs: seq<Instance>, ids: seq<string>)
    requires IdsInState(xs, verb.Wrong()) == ids && ids != []
    requires !DryRun(c) && NotificationTarget(c) == None && Invoke(world, verb, ids) == ApiOk(ids)
    ensures Reconcile(c, world, verb, now, xs) ==
      Execution(Ok(Completed(now, |xs|, [Action(verb, ids, [])])), [ApiCall(verb, ids)])
  {
    var res := ActionOutcome(c, world, verb, ids);
    assert res == ActionResult(ids, []);
    assert Reconcile(c, world, verb, now, xs) ==
      Execution(Ok(Completed(now, |xs|, [Action(verb, res.success, res.failed)])),
        ApiCalls(c, verb, ids) + NotifyEffects(c, verb, res.success));
  }

  /** Under the built-in configuration the window tests are the 09:00 start test and the 00:00 stop test. */
  lemma {:induction false} FallbackWindowTests(read: StoreRead, now: SecondOfDay)
    requires !read.Found?
    ensures ShouldStart(LoadConfig(read), now) == Ok(StartDue(HourMinute(9, 0), now))
    ensures ShouldStop(LoadConfig(read), now) == Ok(StopDue(HourMinute(0, 0), now))
  {
    FallbackSchedule(read);
  }

  lemma {:induction false} SampleDiscovery(read: StoreRead, now: SecondOfDay)
    requires !read.Found?
    ensures Discovery(LoadConfig(read), SampleWorld(now)) == Ok([Instance("id1", Stopped), Instance("id2", Running)])
  {
    var rs := [[Instance("id1", Stopped), Instance("id2", Running)]];
    FallbackQueriesEnvDev(read, SampleWorld(now));
    assert rs[..0] == [];
    assert Flatten(rs) == rs[0];
  }

  /** The sample fleet as discovery returns it. */
  function SampleFleet(): seq<Instance>
  {
    [Instance("id1", Stopped), Instance("id2", Running)]
  }

  /** Under the built-in configuration, a run on the sample world reaches the branch its windows select. */
  lemma {:induction false} SampleRunReachesBranch(read: StoreRead, now: SecondOfDay, verb: Verb)
    requires !read.Found?
    requires WindowDecision(LoadConfig(read), now) == Ok(Some(verb))
    ensures Schedule(LoadConfig(read), SampleWorld(now)) == Reconcile(LoadConfig(read), SampleWorld(now), verb, now, SampleFleet())
  {
    FallbackSchedule(read);
    SampleDiscovery(read, now);
    ScheduleReachesBranch(LoadConfig(read), SampleWorld(now), now, SampleFleet(), verb);
  }

  /** On the sample fleet each verb targets exactly one instance and its call succeeds in full. */
  lemma {:induction false} SampleReconcile(read: StoreRead, now: SecondOfDay, verb: Verb)
    requires !read.Found?
    ensures var id := if verb == Start then "id1" else "id2";
      Reconcile(LoadConfig(read), SampleWorld(now), verb, now, SampleFleet()) ==
      Execution(Ok(Completed(now, 2, [Action(verb, [id], [])])), [ApiCall(verb, [id])])
  {
    var xs := SampleFleet();
    var id := if verb == Start then "id1" else "id2";
    assert IdsInState(xs, verb.Wrong()) == [id] by {
      assert xs[1..] == [Instance("id2", Running)] && xs[1..][1..] == [];
    }
    FallbackSchedule(read);
    ReconcileFullSuccess(LoadConfig(read), SampleWorld(now), verb, now, xs, [id]);
  }

  /** With the built-in configuration at 09:00:30, only the stopped instance is started. */
  lemma {:induction false} StartAtNineOnFallback(read: StoreRead)
    requires !read.Found?
    ensures Schedule(LoadConfig(read), SampleWorld(32430)) ==
      Execution(Ok(Completed(32430, 2, [Action(Start, ["id1"], [])])), [ApiCall(Start, ["id1"])])
  {
    FallbackWindowTests(read, 32430);
    MidnightStopWindow(32430);
    SampleRunReachesBranch(read, 32430, Start);
    SampleReconcile(read, 32430, Start);
  }

  /** With the built-in configuration at 23:58:00, only the running instance is stopped. */
  lemma {:induction false} StopBeforeMidnightOnFallback(read: StoreRead)
    requires !read.Found?
    ensures Schedule(LoadConfig(read), SampleWorld(86280)) ==
      Execution(Ok(Completed(86280, 2, [Action(Stop, ["id2"], [])])), [ApiCall(Stop, ["id2"])])
  {
    FallbackWindowTests(read, 86280);
    MidnightStopWindow(86280);
    SampleRunReachesBranch(read, 86280, Stop);
    SampleReconcile(read, 86280, Stop);
  }

  /** With the built-in configuration at noon, the run is `no_action` and calls nothing. */
  lemma {:induction false} NoActionAtNoonOnFallback(read: StoreRead)
    requires !read.Found?
    ensures Schedule(LoadConfig(read), SampleWorld(12 * 3600)) == Execution(Ok(NoAction(12 * 3600, 2)), [])
  {
    FallbackSchedule(read);
    SampleDiscovery(read, 12 * 3600);
    MidnightStopWindow(12 * 3600);
  }

  /** A malformed stop time makes the run fail even at 09:00, inside the start window. */
  lemma {:induction false} MalformedStopTimeFailsInStartWindow(read: StoreRead)
    requires !read.Found?
    ensures Schedule(LoadConfig(read).(stopTime := Some("24:00")), SampleWorld(9 * 3600)).outcome
      == Err(InvalidTime("24:00"))
  {
    var c, now := LoadConfig(read).(stopTime := Some("24:00")), 9 * 3600;
    assert LoadConfig(read) == DefaultConfig();
    SampleDiscovery(read, now);
    DefaultTimesParse();
    HourOutOfRangeRejected();
    assert Discovery(c, SampleWorld(now)) == Ok(SampleFleet());
    assert ShouldStart(c, now).Ok?;
    assert ShouldStop(c, now) == Err(InvalidTime("24:00"));
    ScheduleReachesWindowError(c, SampleWorld(now), now, SampleFleet(), InvalidTime("24:00"));
  }
}

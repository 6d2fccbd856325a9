/**
 * The scheduler object and the entry point: `EC2Scheduler` holds the
 * configuration it loaded when it was built and runs the four steps of one
 * invocation; `LambdaHandler` turns the run, or the failure escaping it,
 * into a status code and a body.
 */
module Engine {
  import opened Wrappers
  import opened Windows
  import opened Config
  import opened Inventory
  import opened Decision
  import opened DecisionProperties

  class EC2Scheduler {
    /** The configuration, read once when the scheduler is built. */
    const config: ConfigRecord

    /** `__init__`: load the `default` record, or fall back to the built-in one. */
    constructor (read: StoreRead)
      ensures config == LoadConfig(read)
    {
      config := LoadConfig(read);
    }

    /**
     * `_find_target_instances`: walk the reservations of the tag query and
     * keep, in order, every instance whose id is not excluded.
     */
    method FindTargetInstances(world: World) returns (r: Result<seq<Instance>, Failure>)
      ensures r == Discovery(config, world)
      ensures r.Ok? ==> forall x :: x in r.value ==> x.id !in ExcludedIds(config)
    {
      if config.tagKey.None? {
        return Err(MissingKey("tag_key"));
      }
      if config.tagValue.None? {
        return Err(MissingKey("tag_value"));
      }
      var excluded := ExcludedIds(config);
      var response := world.describe(config.tagKey.value, config.tagValue.value);
      if response.DescribeFailed? {
        return Ok([]);
      }
      var reservations := response.reservations;
      assert Discovery(config, world) == Ok(WithoutExcluded(Flatten(reservations), excluded));
      var instances: seq<Instance> := [];
      var i := 0;
      while i < |reservations|
        invariant 0 <= i <= |reservations|
        invariant instances == WithoutExcluded(Flatten(reservations[..i]), excluded)
      {
        var reservation := reservations[i];
        var kept := KeepIncluded(reservation, excluded);
        instances := instances + kept;
        assert reservations[..i + 1][..i] == reservations[..i];
        WithoutExcludedAppend(Flatten(reservations[..i]), reservation, excluded);
        i := i + 1;
      }
      assert reservations[..i] == reservations;
      return Ok(instances);
    }

    /** The inner loop of `_find_target_instances`: the instances of one reservation that are not excluded, in order. */
    method KeepIncluded(reservation: seq<Instance>, excluded: seq<string>) returns (kept: seq<Instance>)
      ensures kept == WithoutExcluded(reservation, excluded)
    {
      kept := [];
      var j := 0;
      while j < |reservation|
        invariant 0 <= j <= |reservation|
        invariant kept == WithoutExcluded(reservation[..j], excluded)
      {
        WithoutExcludedStep(reservation, j, excluded);
        if reservation[j].id !in excluded {
          kept := kept + [reservation[j]];
        }
        j := j + 1;
      }
      assert reservation[..j] == reservation;
    }

    /**
     * `_start_instances` and `_stop_instances`: nothing to do for no ids;
     * a dry run reports every id as succeeded without calling the API;
     * otherwise one call, whose error fails every id and whose success
     * reports the returned ids and no failure.
     */
    method ExecuteAction(verb: Verb, ids: seq<string>, world: World) returns (res: ActionResult, calls: seq<Effect>)
      ensures res == ActionOutcome(config, world, verb, ids) && calls == ApiCalls(config, verb, ids)
      ensures ids == [] ==> res == ActionResult([], []) && calls == []
      ensures ids != [] && DryRun(config) ==> res == ActionResult(ids, []) && calls == []
      ensures ids != [] && !DryRun(config) ==>
        && calls == [ApiCall(verb, ids)]
        && (Invoke(world, verb, ids).ApiError? ==> res == ActionResult([], ids))
        && (Invoke(world, verb, ids).ApiOk? ==> res == ActionResult(Invoke(world, verb, ids).changedIds, []))
    {
      if ids == [] {
        return ActionResult([], []), [];
      }
      if DryRun(config) {
        return ActionResult(ids, []), [];
      }
      calls := [ApiCall(verb, ids)];
      var answer := Invoke(world, verb, ids);
      match answer
      case ApiOk(changed) =>
        res := ActionResult(changed, []);
      case ApiError =>
        res := ActionResult([], ids);
    }

    /** `_send_notification`: one publish attempt when a non-empty topic is configured, otherwise nothing. */
    method SendNotification(verb: Verb, ids: seq<string>) returns (sent: seq<Effect>)
      ensures sent == NotifyEffects(config, verb, ids)
      ensures |sent| <= 1
      ensures sent != [] <==> NotificationTarget(config).Some?
      ensures forall e :: e in sent ==> e == Notify(NotificationTarget(config).value, verb, ids)
    {
      var topic := NotificationTarget(config);
      if topic.None? {
        return [];
      }
      sent := [Notify(topic.value, verb, ids)];
    }

    /**
     * The start branch (or the stop branch) of `run`: act on the instances
     * in the wrong state for `verb`, record the action, and notify about
     * the instances it changed.
     */
    method Converge(verb: Verb, now: SecondOfDay, instances: seq<Instance>, world: World)
      returns (actions: seq<Action>, effects: seq<Effect>)
      ensures Execution(Ok(Completed(now, |instances|, actions)), effects) == Reconcile(config, world, verb, now, instances)
      ensures |actions| <= 1
      ensures forall a :: a in actions ==> a.verb == verb
    {
      var ids := IdsInState(instances, verb.Wrong());
      if ids == [] {
        return [], [];
      }
      var res, calls := ExecuteAction(verb, ids, world);
      actions := [Action(verb, res.success, res.failed)];
      effects := calls;
      if res.success != [] {
        var sent := SendNotification(verb, res.success);
        effects := effects + sent;
      } else {
        assert effects == calls + [];
      }
    }

    /**
     * `run`: disabled check, clock, discovery, both window tests, then at
     * most one branch that acts only on instances in the wrong state.
     */
    method Run(world: World) returns (r: Result<RunResult, Failure>, effects: seq<Effect>)
      ensures Execution(r, effects) == Schedule(config, world)
    {
      effects := [];
      if !Enabled(config) {
        return Ok(Disabled), effects;
      }
      var zone := ZoneName(config);
      var clock := world.localTime(zone);
      if clock.UnknownZone? {
        return Err(UnknownTimeZone(zone)), effects;
      }
      var now := clock.second;
      var found := FindTargetInstances(world);
      if found.Err? {
        return Err(found.error), effects;
      }
      var instances := found.value;
      if instances == [] {
        return Ok(NoInstances), effects;
      }
      var actions: seq<Action> := [];
      var inWindow := true;
      var shouldStart := ShouldStart(config, now);
      if shouldStart.Err? {
        return Err(shouldStart.error), effects;
      }
      var shouldStop := ShouldStop(config, now);
      if shouldStop.Err? {
        return Err(shouldStop.error), effects;
      }
      assert WindowDecision(config, now) ==
        Ok(if shouldStart.value then Some(Start) else if shouldStop.value then Some(Stop) else None);
      if shouldStart.value {
        ScheduleReachesBranch(config, world, now, instances, Start);
        actions, effects := Converge(Start, now, instances, world);
      } else if shouldStop.value {
        ScheduleReachesBranch(config, world, now, instances, Stop);
        actions, effects := Converge(Stop, now, instances, world);
      } else {
        inWindow := false;
      }
      r := if inWindow then Ok(Completed(now, |instances|, actions)) else Ok(NoAction(now, |instances|));
    }
  }

  /** The body of the handler's answer: the status record, or the `error` record. */
  datatype Body = RunBody(result: RunResult) | ErrorBody(error: Failure)

  datatype Response = Response(statusCode: int, body: Body)

  /**
   * `lambda_handler`: build a scheduler and run it; a run that returns
   * answers 200 with its record, a failure escaping it answers 500 with an
   * `error` record. The trigger event is ignored.
   */
  method LambdaHandler(read: StoreRead, world: World) returns (response: Response, effects: seq<Effect>)
    ensures var run := Schedule(LoadConfig(read), world);
      && effects == run.effects
      && (response.statusCode == 200 <==> run.outcome.Ok?)
      && (run.outcome.Ok? ==> response == Response(200, RunBody(run.outcome.value)))
      && (run.outcome.Err? ==> response == Response(500, ErrorBody(run.outcome.error)))
  {
    var scheduler := new EC2Scheduler(read);
    var r;
    r, effects := scheduler.Run(world);
    match r
    case Ok(result) =>
      response := Response(200, RunBody(result));
    case Err(e) =>
      response := Response(500, ErrorBody(e));
  }
}

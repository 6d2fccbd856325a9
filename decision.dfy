/**
 * One invocation of the scheduler as a value: which configuration, clock
 * reading, inventory and API answers lead to which status record and which
 * calls to the instance-control API and the notification topic.
 *
 * The collaborators are injected as a `World` of total functions from the
 * request to the answer, so that a run is a function of the configuration
 * and the world.
 */
module Decision {
  import opened Wrappers
  import opened TimeParse
  import opened Windows
  import opened Config
  import opened Inventory

  /** The clock in the named zone; an unknown zone name makes the zone lookup raise. */
  datatype LocalTime = At(second: SecondOfDay) | UnknownZone

  /** A `describe_instances` answer: the reservations, or a client error. */
  datatype Described = Reservations(reservations: seq<seq<Instance>>) | DescribeFailed

  /** A `start_instances`/`stop_instances` answer: the ids reported as changing, or a client error. */
  datatype ApiOutcome = ApiOk(changedIds: seq<string>) | ApiError

  /** The collaborators of one invocation. */
  datatype World = World(
    localTime: string -> LocalTime,
    describe: (string, string) -> Described,
    startInstances: seq<string> -> ApiOutcome,
    stopInstances: seq<string> -> ApiOutcome)

  datatype Verb = Start | Stop
  {
    /** The state an instance must be in for this verb to act on it. */
    function Wrong(): InstanceState
    {
      if Start? then Stopped else Running
    }

    /** The state the verb brings an instance to. */
    function Desired(): InstanceState
    {
      if Start? then Running else Stopped
    }
  }

  /** What `_start_instances`/`_stop_instances` return. */
  datatype ActionResult = ActionResult(success: seq<string>, failed: seq<string>)

  /** One entry of the `actions` list of the status record. */
  datatype Action = Action(verb: Verb, success: seq<string>, failed: seq<string>)

  /** What a run does to the outside world: a mutation call, or a notification attempt. */
  datatype Effect = ApiCall(verb: Verb, ids: seq<string>) | Notify(topic: string, verb: Verb, ids: seq<string>)

  /** The exceptions that escape `run`. */
  datatype Failure = MissingKey(key: string) | InvalidTime(text: string) | UnknownTimeZone(zone: string)

  /** The status record `run` returns. */
  datatype RunResult =
    | Disabled
    | NoInstances
    | NoAction(currentTime: SecondOfDay, totalInstances: nat)
    | Completed(currentTime: SecondOfDay, totalInstances: nat, actions: seq<Action>)

  /** The result of `run` (or the exception that escaped it) and the calls it made, in order. */
  datatype Execution = Execution(outcome: Result<RunResult, Failure>, effects: seq<Effect>)

  /**
   * `_find_target_instances`: the tag-matched instances minus the excluded
   * ids; a failed query counts as no instances. A missing `tag_key` or
   * `tag_value` raises.
   */
  function Discovery(c: ConfigRecord, world: World): Result<seq<Instance>, Failure>
  {
    match (c.tagKey, c.tagValue)
    case (None, _) => Err(MissingKey("tag_key"))
    case (Some(_), None) => Err(MissingKey("tag_value"))
    case (Some(k), Some(v)) =>
      match world.describe(k, v)
      case DescribeFailed => Ok([])
      case Reservations(rs) => Ok(WithoutExcluded(Flatten(rs), ExcludedIds(c)))
  }

  /** A configured time of day, parsed; missing or malformed text raises. */
  function ConfiguredTime(text: Option<string>, key: string): Result<HourMinute, Failure>
  {
    match text
    case None => Err(MissingKey(key))
    case Some(s) =>
      match ParseTime(s)
      case None => Err(InvalidTime(s))
      case Some(t) => Ok(t)
  }

  /** `_should_start_instances`. */
  function ShouldStart(c: ConfigRecord, now: SecondOfDay): Result<bool, Failure>
  {
    match ConfiguredTime(c.startTime, "start_time")
    case Err(e) => Err(e)
    case Ok(t) => Ok(StartDue(t, now))
  }

  /** `_should_stop_instances`. */
  function ShouldStop(c: ConfigRecord, now: SecondOfDay): Result<bool, Failure>
  {
    match ConfiguredTime(c.stopTime, "stop_time")
    case Err(e) => Err(e)
    case Ok(t) => Ok(StopDue(t, now))
  }

  /**
   * Both window tests are evaluated, start first, before either is used;
   * then start wins over stop.
   */
  function WindowDecision(c: ConfigRecord, now: SecondOfDay): Result<Option<Verb>, Failure>
  {
    match ShouldStart(c, now)
    case Err(e) => Err(e)
    case Ok(start) =>
      match ShouldStop(c, now)
      case Err(e) => Err(e)
      case Ok(stop) =>
        Ok(if start then Some(Start) else if stop then Some(Stop) else None)
  }

  /** The answer of the mutation API for a verb. */
  function Invoke(world: World, verb: Verb, ids: seq<string>): ApiOutcome
  {
    match verb
    case Start => world.startInstances(ids)
    case Stop => world.stopInstances(ids)
  }

  /** Whether `_start_instances`/`_stop_instances` reach the API at all. */
  predicate CallsApi(c: ConfigRecord, ids: seq<string>)
  {
    ids != [] && !DryRun(c)
  }

  /** The result of `_start_instances`/`_stop_instances`. */
  function ActionOutcome(c: ConfigRecord, world: World, verb: Verb, ids: seq<string>): ActionResult
  {
    if ids == [] then ActionResult([], [])
    else if DryRun(c) then ActionResult(ids, [])
    else
      match Invoke(world, verb, ids)
      case ApiOk(changed) => ActionResult(changed, [])
      case ApiError => ActionResult([], ids)
  }

  /** The mutation calls `_start_instances`/`_stop_instances` make. */
  function ApiCalls(c: ConfigRecord, verb: Verb, ids: seq<string>): seq<Effect>
  {
    if CallsApi(c, ids) then [ApiCall(verb, ids)] else []
  }

  /** `_send_notification`: a publish attempt when a topic is configured. */
  function NotifyEffects(c: ConfigRecord, verb: Verb, ids: seq<string>): seq<Effect>
  {
    if NotificationTarget(c).Some? then [Notify(NotificationTarget(c).value, verb, ids)] else []
  }

  /** The start or stop branch of `run` on the discovered instances. */
  function Reconcile(c: ConfigRecord, world: World, verb: Verb, now: SecondOfDay, instances: seq<Instance>): Execution
  {
    var ids := IdsInState(instances, verb.Wrong());
    if ids == [] then Execution(Ok(Completed(now, |instances|, [])), [])
    else
      var res := ActionOutcome(c, world, verb, ids);
      Execution(
        Ok(Completed(now, |instances|, [Action(verb, res.success, res.failed)])),
        ApiCalls(c, verb, ids) + (if res.success != [] then NotifyEffects(c, verb, res.success) else []))
  }

  /** `EC2Scheduler.run` on configuration `c`. */
  function Schedule(c: ConfigRecord, world: World): Execution
  {
    if !Enabled(c) then Execution(Ok(Disabled), [])
    else
      var zone := ZoneName(c);
      match world.localTime(zone)
      case UnknownZone => Execution(Err(UnknownTimeZone(zone)), [])
      case At(now) =>
        match Discovery(c, world)
        case Err(e) => Execution(Err(e), [])
        case Ok(instances) =>
          if instances == [] then Execution(Ok(NoInstances), [])
          else
            match WindowDecision(c, now)
            case Err(e) => Execution(Err(e), [])
            case Ok(None) => Execution(Ok(NoAction(now, |instances|)), [])
            case Ok(Some(verb)) => Reconcile(c, world, verb, now, instances)
  }
}

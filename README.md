# EC2 auto-scheduler: a Dafny model of the scheduling engine

This project models the decision engine of the EC2 auto-scheduler, the
`EC2Scheduler` class and the `lambda_handler` entry point of
`src/lambda_function.py`. One invocation runs four steps:

1. **Config resolution**: read the `default` schedule record, or fall back to
   the built-in schedule (fleet `Env=Dev`, start `09:00`, stop `00:00`,
   `Asia/Shanghai`, enabled, not a dry run, nothing excluded, no topic).
2. **Time parsing**: `"HH:MM"` text through Python's `split(':')`, `int()` and
   the `time(hour, minute)` range check.
3. **Window evaluation**: the start window is ±300 s around the start time on
   the same date. The stop window is the same, except that a stop time of
   `00:00` uses a day-boundary check on the clock reading without its
   seconds.
4. **Reconciliation**: discovery drops excluded ids. Start has priority over
   stop. Only instances in the wrong state are sent to the one action.
   Dry-run and API-error rules apply to that action. The status record is
   `disabled`, `no_instances`, `no_action` or `completed`, with at most one
   action entry. A notification goes out only when the action changed
   something and a topic is set.

The cloud services are injected as a `World` of total functions from request
to answer:

- the clock in a named zone, as whole seconds since local midnight, or "unknown zone";
- the tag-filtered `describe_instances` answer;
- the `start_instances` and `stop_instances` answers.

A run returns its status record, or the failure that escaped it, together
with the sequence of mutation calls and notification attempts it made.

Modules, one per concern:

- `Wrappers` (`wrappers.dfy`): `Option`, `Result`.
- `TimeParse` (`time_parse.dfy`): `str.split`, Python `int()` and `_parse_time` (lines 63-66).
- `Windows` (`windows.dfy`): `_should_start_instances` and `_should_stop_instances` once the time is parsed (lines 68-103).
- `Config` (`config.dfy`): the configuration record, `_get_default_config`, `_load_config`, and the `config.get(key, default)` defaults (lines 27-56, 110, 148, 183, 199).
- `Inventory` (`inventory.dfy`): instances, the exclusion filter (125-134), the state filters (224, 240), and the state an instance reaches after an action.
- `Decision` (`decision.dfy`): one run as a function. It holds:
  - `Discovery` for `_find_target_instances`;
  - `ShouldStart`, `ShouldStop` and `WindowDecision` for lines 219-222 and 238;
  - `ActionOutcome`, `ApiCalls`, `NotifyEffects` and `Reconcile` for the branch bodies;
  - `Schedule` for `run`.
- `DecisionProperties` (`decision_properties.dfy`): what one run and two runs in a row guarantee, and the worked scenarios.
- `Engine` (`engine.dfy`): the class `EC2Scheduler` with `const config` set by its constructor. Its methods are imperative: `FindTargetInstances` (the outer loop, with the inner loop in `KeepIncluded`), `ExecuteAction`, `SendNotification` and `Run`. Each is proved equal to the `Decision` function it implements. `LambdaHandler` maps the outcome to status code 200 or 500.

Points where the code's behaviour is easy to misread:

- With stop time `00:00`, the code's own comment at line 92 describes the window as 23:55-00:05. The code drops the seconds (line 89), so every reading up to 00:05:59 is due (`MidnightStopWindow`, `MidnightStopIgnoresSeconds`).
- Ids that the API did not report back are not counted as failed. The code reports `failed = []` for any successful call (lines 154-156, 173-175), so `ExecuteAction` states that.
- Only a `ClientError` from the inventory query is turned into an empty discovery. A missing `tag_key` or `tag_value` raises a `KeyError` at line 108 or line 109. Both lines are inside the `try` opened at line 107, but the `except` at line 139 catches only `ClientError`. The `KeyError` escapes, so the run ends in `error`.
- Both window tests run before either is used (lines 219-220). A malformed stop time therefore fails the run even inside the start window (`MalformedStopTimeFailsInStartWindow`).

## Model

| member | source | states |
|---|---|---|
| TimeParse.Split | src/lambda_function.py:65 | `split(':')` yields one more piece than there are colons, no piece holds a colon, and joining the pieces with `:` gives back the text |
| TimeParse.SplitAtSeparator | src/lambda_function.py:65 | text with exactly one colon splits into the text before it and the text after it |
| TimeParse.ParseTime | src/lambda_function.py:63-66 | a parsed time has hour in 0..23 and minute in 0..59, and the text held exactly one colon |
| TimeParse.ParseTimeExactly | src/lambda_function.py:63-66 | parsing succeeds with time t exactly when the text is two colon-free pieces around one colon, `int()` gives t's hour and minute, and both are in range |
| TimeParse.ParseTwoDigits | src/lambda_function.py:65 | `int()` reads back every two-digit decimal text as its value |
| TimeParse.ParseFormatRoundTrip | src/lambda_function.py:63-66 | every valid time written as `"HH:MM"` parses back to itself |
| TimeParse.ParsedSeconds | src/lambda_function.py:63-66 | a parsed time is a whole minute of the day, at most 23:59 |
| TimeParse.ParseTimeOfPieces | src/lambda_function.py:63-66 | two colon-free pieces that `int()` accepts, with an hour in 0..23 and a minute in 0..59, are read as exactly that time |
| TimeParse.PaddedSingleDigitsAccepted | src/lambda_function.py:65 | `int()` tolerance carries over: a space, one digit, a colon and one digit (`" 9:5"`) is accepted as that hour and minute |
| TimeParse.TooManyDigitsRejected | src/lambda_function.py:65 | a digit text longer than 4300 characters, leading zeros included, is refused by `int()`, so such a time text fails to parse |
| TimeParse.InformationSeparatorRejected | src/lambda_function.py:65 | a digit preceded by one of the ASCII information separators 0x1C-0x1F is rejected by `int()`; they are not stripped as space |
| TimeParse.HourOutOfRangeRejected | src/lambda_function.py:66 | `"24:00"` is rejected by the range check of `time(hour, minute)` |
| TimeParse.SecondsRejected | src/lambda_function.py:65 | `"09:00:00"` has three pieces and is rejected |
| Windows.MinuteOfDayIsFloor | src/lambda_function.py:89 | `hour*3600 + minute*60` of a reading is the reading with its seconds dropped |
| Windows.StartWindowExact | src/lambda_function.py:68-78 | the start test holds exactly on [start-300, start+300] seconds of the same day |
| Windows.StartWindowDoesNotWrap | src/lambda_function.py:74-78 | start 00:02 is not due at 23:59; start+300 s is due, start+301 s is not |
| Windows.MidnightStopWindow | src/lambda_function.py:86-94 | for stop 00:00 the stop test holds exactly for readings >= 23:55:00 or < 00:06:00 |
| Windows.MidnightStopIgnoresSeconds | src/lambda_function.py:89-94 | 00:05:59 is due and 23:54:59 is not, although 00:05:59 is more than 300 s from midnight |
| Windows.StopOtherwiseLikeStart | src/lambda_function.py:95-101 | any stop time other than 00:00 uses the same-date ±300 s test |
| Config.FallbackSchedule | src/lambda_function.py:27-56 | a missing or unreadable record yields Env/Dev, 09:00, 00:00, Asia/Shanghai, enabled, not dry-run, no exclusions, no topic |
| Inventory.WithoutExcluded | src/lambda_function.py:125-134 | the filter keeps an instance exactly when it is in the inventory and its id is not excluded, and never grows the list |
| Inventory.WithoutExcludedAppend | src/lambda_function.py:126-134 | filtering reservation by reservation equals filtering the concatenation |
| Inventory.NothingExcludedKeepsAll | src/lambda_function.py:110 | with the default empty exclusion list every instance is kept, in order |
| Inventory.IdsInState | src/lambda_function.py:224 | an id is selected exactly when some instance with that id is in the requested state |
| Inventory.Transition | src/lambda_function.py:222-252 | the inventory after an action: same length, each instance whose id was changed is in the new state and every other instance is unchanged |
| Inventory.TransitionConverges | src/lambda_function.py:222-252 | once every wrong-state instance has been carried to another state, none is left in the wrong state |
| DecisionProperties.DisabledShortCircuits | src/lambda_function.py:199-201 | a disabled config returns `disabled` with no calls, whatever the clock and inventory |
| DecisionProperties.MissingEnabledMeansEnabled | src/lambda_function.py:199 | a record without `enabled` is enabled |
| DecisionProperties.DiscoveryIsInventoryMinusExcluded | src/lambda_function.py:105-137 | an instance is discovered exactly when the tag query returned it and its id is not excluded |
| DecisionProperties.EmptyDiscoveryMeansNoInstances | src/lambda_function.py:206-209 | empty discovery, including a failed query, gives `no_instances` and no calls |
| DecisionProperties.FallbackQueriesEnvDev | src/lambda_function.py:105-123 | with the built-in config, discovery is the `Env=Dev` query result unfiltered, or empty when it fails |
| DecisionProperties.ActsOnlyOnWrongState | src/lambda_function.py:222-242 | a start (stop) call sends exactly the ids of all discovered stopped (running) instances, in order, none of them excluded |
| DecisionProperties.ActionFollowsWindows | src/lambda_function.py:219-252 | a recorded start needs the start window; a recorded stop needs the stop window and no start window (the converse is `ActsWhenDue`) |
| DecisionProperties.ActsWhenDue | src/lambda_function.py:219-252 | when instances are discovered, a window is selected and some instance is in the wrong state for it, the run completes with exactly one action of that verb. The action's lists are the start/stop result on the wrong-state ids, and outside a dry run the first effect is the call on those ids |
| DecisionProperties.StartHasPriority | src/lambda_function.py:222-238 | inside the start window no call, action or notification concerns stop |
| DecisionProperties.NoActionExactlyOutsideBothWindows | src/lambda_function.py:254-257 | `no_action` iff enabled, clock known, instances found and both window tests evaluate to false |
| DecisionProperties.WindowErrorsEscape | src/lambda_function.py:219-220 | a missing or malformed start or stop time makes the run fail with no calls, even when the start window holds |
| DecisionProperties.DryRunNeverMutates | src/lambda_function.py:148-150 | a dry run makes no mutation call and reports exactly the targeted ids as succeeded, none failed |
| DecisionProperties.CompletedRecordShape | src/lambda_function.py:211-253 | `completed` counts all discovered instances and holds at most one action. Its effects are at most one mutation call followed by at most one notification, and none without an action |
| DecisionProperties.NotifiesOnlyOnSuccess | src/lambda_function.py:233-236 | a notification goes to the configured topic, about the non-empty success list of the single recorded action |
| DecisionProperties.NotifiesOnSuccess | src/lambda_function.py:233-236 | a recorded action with a non-empty success list and a configured topic always leads to a notification about exactly those ids |
| DecisionProperties.NotificationDoesNotChangeResult | src/lambda_function.py:181-195 | changing the notification topic never changes the status record |
| DecisionProperties.RepeatRunAddsNoAction | src/lambda_function.py:222-252 | after every targeted instance changed state, a later run at any reading that selects the same branch records no action and makes no call |
| DecisionProperties.FallbackWindowTests | src/lambda_function.py:68-103 | under the built-in config the window tests are the 09:00 start test and the 00:00 stop test |
| DecisionProperties.StartAtNineOnFallback | src/lambda_function.py:222-236 | built-in config at 09:00:30 with id1 stopped and id2 running: start on [id1] only, `completed` |
| DecisionProperties.StopBeforeMidnightOnFallback | src/lambda_function.py:238-252 | same fleet at 23:58:00: stop on [id2] only |
| DecisionProperties.NoActionAtNoonOnFallback | src/lambda_function.py:254-257 | same fleet at 12:00:00: `no_action`, no calls |
| DecisionProperties.MalformedStopTimeFailsInStartWindow | src/lambda_function.py:219-220 | stop time `"24:00"` makes the 09:00 run fail although the start window holds |
| TimeParse.ParseInt | src/lambda_function.py:65 | definition without an `ensures`: Python `int()` on ASCII text, stripping only space and tab through carriage return and refusing more than 4300 digits (the default `sys.get_int_max_str_digits()`); its properties are in `ParseTwoDigits`, `TooManyDigitsRejected`, `ParseTimeExactly` and `InformationSeparatorRejected` |
| Windows.StartDue | src/lambda_function.py:68-78 | definition without an `ensures`: the same-date ±300 s start test; characterised by `StartWindowExact` |
| Windows.StopDue | src/lambda_function.py:80-103 | definition without an `ensures`: the stop test with its 00:00 case; characterised by `MidnightStopWindow` and `StopOtherwiseLikeStart` |
| Config.DefaultConfig | src/lambda_function.py:43-56 | definition without an `ensures`: the built-in record; its fields are stated by `FallbackSchedule` |
| Config.LoadConfig | src/lambda_function.py:27-41 | definition without an `ensures`: the stored record, or the built-in one when missing or unreadable; see `FallbackSchedule` |
| Decision.Discovery | src/lambda_function.py:105-141 | definition without an `ensures`: tag query minus excluded ids, empty on a failed query, failure on a missing tag key; see `DiscoveryIsInventoryMinusExcluded` |
| Decision.WindowDecision | src/lambda_function.py:219-222 | definition without an `ensures`: both window tests in order, start before stop; see `ActionFollowsWindows` and `StartHasPriority` |
| Decision.ActionOutcome | src/lambda_function.py:143-179 | definition without an `ensures`: the result of one start or stop; its four cases are stated by `ExecuteAction` |
| Decision.Reconcile | src/lambda_function.py:222-252 | definition without an `ensures`: the branch body; see `ActsOnlyOnWrongState`, `NotifiesOnlyOnSuccess` and `NotifiesOnSuccess` |
| Decision.Schedule | src/lambda_function.py:197-259 | definition without an `ensures`: one run as a function; its guarantees are the `DecisionProperties` lemmas |
| Engine.EC2Scheduler.constructor | src/lambda_function.py:24-25 | the scheduler holds the loaded configuration |
| Engine.EC2Scheduler.FindTargetInstances | src/lambda_function.py:105-141 | the nested loops produce the discovery result; no excluded id is returned |
| Engine.EC2Scheduler.KeepIncluded | src/lambda_function.py:127-134 | the inner loop keeps, in order, exactly the instances of one reservation whose id is not excluded |
| Engine.EC2Scheduler.ExecuteAction | src/lambda_function.py:143-179 | empty ids: nothing; dry run: all succeed, no call; API error: all fail; API success: the returned ids succeed and none fail |
| Engine.EC2Scheduler.SendNotification | src/lambda_function.py:181-195 | exactly one publish attempt when a non-empty topic is set, none otherwise |
| Engine.EC2Scheduler.Converge | src/lambda_function.py:222-252 | the branch body acts on the wrong-state ids, records at most one action of its verb, and notifies on success |
| Engine.EC2Scheduler.Run | src/lambda_function.py:197-259 | the imperative run returns the status record and calls that `Schedule` specifies |
| Engine.LambdaHandler | src/lambda_function.py:261-284 | status 200 with the record when the run returns, 500 with an `error` body carrying the failure when it raises |

## Left out

- AWS clients (EC2, DynamoDB, SNS) are replaced by the injected `World` and `StoreRead`. Their failures are modelled only as `ClientError`, the only exception the source catches. Other exceptions, such as connection errors, escape to `lambda_handler` as `error` in the source and are not modelled.
- Time zones are not modelled. The `pytz` lookup and `datetime.now` become a clock function from zone name to whole seconds since local midnight. Sub-second fractions are not modelled, and the source treats 09:05:00.5 as outside a 09:00 start window. DST shifts are not modelled either.
- Logging is left out, as are the Chinese `message` texts, `isoformat` and `strftime` text, the JSON encoding of the body, and the exception message `str(e)`. A failure is an enum of its cause instead.
- The notification subject and message text are left out. A notification attempt records its topic, verb and ids. A failed publish is only logged in the source, so its outcome is not a parameter.
- Stored records holding an explicit null or a value of another type are not modelled. Neither are the metadata fields `description`, `created_at` and `updated_at`, which are never read.
- The `describe` answer is not constrained to `running` and `stopped` instances, although the source query filters on `instance-state-name` (lines 118-121). An answer holding other states would count in `totalInstances` and would prevent `no_instances`; no proved property depends on this.
- `InstanceState` does not forbid `OtherState("running")` or `OtherState("stopped")`. By convention those names are always `Running` and `Stopped`. A `describe` answer that broke this convention would not be counted by the state filters.
- `InstanceType` and `Tags` are copied into the discovered records but never read, so they are not modelled.
- `ParseInt` does not model non-ASCII digits or non-ASCII whitespace, both of which Python's `int()` accepts.
- `manage_config.py` (the config CRUD CLI), `src/config_init.py` (the deployment hook that seeds the `default` record) and `test_deployment.py` (live smoke tests) are not part of this model.
- Overlapping invocations are not modelled, because the source does not coordinate them.

# envoy-homebridge-dummy, modelled in Dafny

The bridge polls an Envoy solar-inverter proxy for the inverter's
`grid_state` and forwards every change of it to a homebridge-dummy webhook,
as the value of the accessory's "On" property: on exactly when the state is
`"on-grid"` or `"multimode-ongrid"`. Its options are declared by
`add_env_arg`, which takes each default from an environment variable.

The model has four modules:

- `Wrappers`: `Option`, Python's `None`-or-value.
- `PyJson`: the non-null JSON scalars the `grid_state` field can hold, and
  Python's `==` on them. `True == 1 == 1.0` holds there, so the model uses the
  same equality.
- `EnvArgs`: `add_env_arg` written as a pure function of the variable's name,
  its value in the environment (`None` when unset) and the supplied default.
  It gives the long flag, the effective default and whether the option is
  required.
- `Bridge`: the `Dingus` class, whose one mutable field is `lastGridState`.
  `RunOnce` takes the outcome of the GET and of the webhook POST as inputs.
  `Step` is the pure specification of one call. `Poll` applies `Step` to each
  tick in turn, as the main loop does. `RunTicks` drives a `Dingus` over a
  finite run of ticks and is proved to match `Poll`.

What the code does, and what the model therefore proves:

- `send_notification` runs before `last_grid_state` is assigned, and it raises
  when the POST fails. So a failed delivery leaves the old state in place, and
  the next identical observation triggers the same notification again.
- `lastGridState` is therefore always the last state actually delivered.
- When every POST succeeds, the delivered states are exactly the non-null
  observations with runs of equal neighbours collapsed.
- `main.py` has no periodic-refresh deadline and no signal handling, and the
  model has neither.

## Model

| member | source | states |
|---|---|---|
| `PyJson.PyEq` | main.py:38 | Python equality on decoded scalars: reflexive; on a string it is plain equality; two numbers are equal iff their values are, two bools iff they match; a bool equals exactly the number 1 or 0, in either order |
| `PyJson.PyEqTransitive` | main.py:38 | the comparison is transitive, so a run of equal observations can be compared against any member of it |
| `EnvArgs.LowerChar` | main.py:13 | ASCII `lower` of one character: the result is never an upper-case letter; upper-case letters move up by 32, to the lower-case letter; other characters stay as they are |
| `EnvArgs.Lower` | main.py:13 | `lower()` keeps the length and lowers each character in place |
| `EnvArgs.Replace` | main.py:13 | one-character `replace` keeps the length and swaps every occurrence, and only those |
| `EnvArgs.LongFlag` | main.py:13 | the flag is `--` followed by the name, character for character, with each `_` made `-` and each letter lowered |
| `EnvArgs.LongFlagIsLowerKebab` | main.py:13 | a long flag holds no `_` and no upper-case letter |
| `EnvArgs.EffectiveDefault` | main.py:12 | the default comes from the environment iff the variable is set and non-empty, and is then its text; a supplied default is used only as that default; there is none iff the variable is unset or empty and no default was supplied |
| `EnvArgs.AddEnvArg` | main.py:10-17 | the option gets the derived flag and the effective default; it is required iff that default is `None`, i.e. iff the variable is unset or empty and no default was supplied |
| `EnvArgs.StripDashes` | main.py:13 | `lstrip("-")`: the result is a suffix of the input, does not start with `-`, and only dashes were dropped |
| `EnvArgs.DestOfLongFlag` | main.py:13 | for a non-empty name with no `-` that does not start with `_`, the attribute `argparse` stores the flag under is `env.lower()`, the name `main.py` reads back (`args.envoyproxy_url`) |
| `EnvArgs.LeadingUnderscoreIsDropped` | main.py:13 | for the name `_FOO` the flag is `---foo`, and `argparse` strips all three dashes: the option is stored under `foo`, not `_foo` |
| `EnvArgs.LongFlagIs` | main.py:13 | the per-character description of the flag determines it uniquely |
| `EnvArgs.IntervalOption` | main.py:54 | with no environment, `--interval` defaults to 10 and is optional |
| `EnvArgs.EnvoyproxyUrlOption` | main.py:55 | with no environment, `--envoyproxy-url` has no default and is required |
| `EnvArgs.HomebridgeAccessoryIdOption` | main.py:56 | with no environment, `--homebridge-accessory-id` has no default and is required |
| `EnvArgs.HomebridgeWebhookUrlOption` | main.py:57 | with no environment, `--homebridge-webhook-url` has no default and is required |
| `EnvArgs.EmptyVariableIsUnset` | main.py:12 | an empty variable counts as unset: `INTERVAL=""` keeps 10, and `ENVOYPROXY_URL=""` leaves the option required |
| `Bridge.PyIn` | main.py:44 | `x in xs` holds iff some element of `xs` compares equal to `x` |
| `Bridge.IsOn` | main.py:44 | the value is true iff the state is exactly the string `"on-grid"` or `"multimode-ongrid"`; no number, bool or other string is on |
| `Bridge.NotificationPayload` | main.py:44-47 | the body carries the accessory id, `set` = `"On"`, and the on/off value of the state |
| `Bridge.Step` | main.py:30-48 | a failed fetch ends the call with no change; a missing or null state ends it with no change; a notification is attempted iff the observed state differs from the last one; it carries that state; the state changes only when the POST succeeds, and then to the state delivered |
| `Bridge.FirstObservationNotifies` | main.py:27-40 | starting from `None`, the first observed state always triggers a notification |
| `Bridge.RepeatIsIdempotent` | main.py:38-41 | after a delivered notification, observing the same state again sends nothing and changes nothing |
| `Bridge.FailedNotificationIsRetried` | main.py:40-48 | after a POST that raised, the same observation triggers the same notification on the next tick |
| `Bridge.Differs` | main.py:38 | `grid_state != last_grid_state`: every value differs from `None`; a value never differs from itself; against a string it is plain inequality; two numbers differ iff their values do, two bools iff they do not match; a bool and a number differ unless the number is the matching 1 or 0, in either order |
| `Bridge.DeliveredOfStep` | main.py:38-41 | one call delivers the observed state exactly when it was observed, differs from the last state and its POST succeeded; otherwise it delivers nothing |
| `Bridge.Poll` | main.py:70-74 | over any run of ticks, failures included, the final state is the last state delivered (or the initial one if none was); each delivered state differs from the one delivered before it |
| `Bridge.PollAppend` | main.py:70-74 | a run split anywhere: polling `a` and then `b` from the state `a` left gives the state and the deliveries of polling `a + b` |
| `Bridge.DeliveredAreChanges` | main.py:38-41 | from a state equal to `p`, with every POST succeeding, the delivered states are exactly the points where the observations after `p` change value |
| `Bridge.DeliveredAreCollapsedObservations` | main.py:30-41 | from `None`, with every POST succeeding, the delivered states are the non-null observations with consecutive equal ones collapsed |
| `Bridge.Dingus.constructor` | main.py:24-27 | a new poller has no last state |
| `Bridge.Dingus.SendNotification` | main.py:43-48 | posts the body `NotificationPayload` gives: the accessory id, `"On"` and the on/off value of the state; it reports failure exactly when the POST raises |
| `Bridge.Dingus.RunOnce` | main.py:30-41 | the new `lastGridState` and the way the call ends are those of `Step` on the old state; nothing else changes |
| `Bridge.RunTicks` | main.py:70-74 | driving a poller over a run of ticks, each error caught, leaves it in the state `Poll` gives, having delivered the states `Poll` lists |

## Left out

- The HTTP calls: `requests.Session`, the GET, `raise_for_status`, `.json()` and the POST. Each one's success or failure is an input (`Fetch`, `Tick.postOk`). A body that is not JSON, or not a JSON object, is folded into `FetchFailed`, because `.json()` or `.get` raises on it before anything else happens.
- `grid_state` values that are JSON arrays or objects: only scalars are modelled.
- Numbers are exact reals. This matches Python's `1 == 1.0`, but not two decimal literals that round to the same binary float, and not `NaN`.
- `EnvArgs.LowerChar`: lowers ASCII letters only, because `str.lower`'s Unicode case mapping is not modelled. Every option name `main` uses is ASCII.
- `EnvArgs.DestOfLongFlag`: states `argparse`'s rule for deriving an attribute name from a long flag. That rule belongs to `argparse`, not to `main.py`. It is not stated for the empty name, whose flag `--` makes `argparse` raise, nor for a name containing `-`. Every name `main` uses is non-empty and starts with a letter.
- The `parser.add_argument` call itself: the help string (main.py:11, 18), the `type` conversion (`float` for `INTERVAL`), `parse_args`, and the `-v` flag (main.py:52-58).
- Reading `os.environ`: the value is a parameter of `AddEnvArg`.
- Logging setup and log calls (main.py:28, 36, 39, 60-66).
- The infinite `while True` loop and its sleeps (`time.sleep(30)` after an error, `time.sleep(args.interval)` after every tick, main.py:70-76). `RunTicks` and `Poll` cover any finite run of ticks with no timing.
- A periodic refresh deadline and signal-driven shutdown. `main.py` has no code for either.

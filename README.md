# Tapo P105 helper wrapper and config-flow step, in Dafny

This project models the core of the `tapo_p105` home-automation integration.
The integration asks a Tapo P105 smart plug for its status, and switches it on
or off, by starting an external helper binary, `tapo2`. The model covers two
parts of it.

- **The `TapoCli` wrapper** (`tapocli.dfy`, module `Tapocli`).
  - Where the helper lives: `<config dir>/custom_components/tapo_p105/bin/tapo2`.
  - The argument vector: `[helper path, ip, username, password, command]`.
  - How a finished helper run is classified. A timeout becomes
    `InvalidIpError`. Otherwise non-empty stderr is searched for
    "Login failed" (`AuthError`), then for "tapo2.h" (`CannotConnectError`),
    and any other non-empty stderr is `UnknownError`. Empty stderr returns
    stdout unchanged.
  - `info`: it runs the helper while stdout is empty, at most five times. A
    raised error stops it at once. It then decodes the last stdout as JSON, or
    raises `InvalidResponseError`.
  - `on` and `off`.
- **The config flow's user step** (`config_flow.dfy`, module `ConfigFlow`).
  - With no input, it shows the form with no errors.
  - With input, it builds the wrapper from the user's address and credentials
    and calls `info` once.
  - It maps each error kind to exactly one `(field, key)` entry of the form's
    `errors`. On success it creates an entry. The entry's title is the
    device's name. Its data is the user input, and the flow's unique id is
    set to the device's unique id.

The helper process is an oracle. `runs[i]` is what the i-th helper run gave
back: `Timeout` or `Done(stdout, stderr)`. JSON decoding is a parameter
`parse: string -> Option<Json>`, with `None` where `json.loads` raises. Where a
result depends on `json.loads("")` raising, the lemma takes that as the
hypothesis `RejectsEmpty(parse)`.

Python's `str.find` is modelled by `Strings.Find`, proved to return the lowest
index of an occurrence, or -1 when there is none. Each `find(...) >= 0` test is
therefore exactly "contains".

The package's `const.py` is not part of this model. `DOMAIN` is taken to be
`tapo_p105`, because the host framework requires a component's domain to equal
its directory name. The values of `UNIQUE_ID` and `DEVICE_NAME` are unknown, so
they are the parameters `uniqueIdKey` and `deviceNameKey`.

After five empty outputs `info` passes the empty string to `json.loads`, which
raises, so `info` raises `InvalidResponseError` (`Tapocli.InfoAllEmpty`).

## Model

| member | source | states |
|---|---|---|
| `Strings.Find` | custom_components/tapo_p105/tapocli.py:41-43 | `str.find`: the result is -1 or an index where the pattern occurs, no earlier index holds an occurrence, and -1 means it occurs nowhere |
| `Strings.FindFindsExactly` | custom_components/tapo_p105/tapocli.py:41-43 | `s.find(sub) >= 0` holds exactly when `sub` is a substring of `s` |
| `Tapocli.Command.Word` | custom_components/tapo_p105/tapocli.py:53-69 | the three commands are passed to the helper as the words `info`, `on` and `off`, one word per command |
| `Tapocli.Join` | custom_components/tapo_p105/tapocli.py:20-22 | one `Path / name` step (no further normalisation): an empty, `.` or `./` base disappears, a base ending in `/` is followed directly by the name, and any other base is separated from the name by one `/` |
| `Tapocli.HelperPath` | custom_components/tapo_p105/tapocli.py:20-22 | the helper path is the config directory joined with `custom_components/tapo_p105/bin/tapo2`: one `/` between them, none added after a trailing `/`, and the bare relative path for an empty, `.` or `./` directory |
| `Tapocli.Classify` | custom_components/tapo_p105/tapocli.py:27-47 | a timeout is `InvalidIpError` whatever was captured; non-empty stderr containing "Login failed" is `AuthError`, even if it also contains "tapo2.h"; one containing "tapo2.h" but not "Login failed" is `CannotConnectError`; any other non-empty stderr is `UnknownError`; empty stderr returns stdout unchanged; a run never classifies as `InvalidResponseError` |
| `Tapocli.ContinuesIsEmptyRun` | custom_components/tapo_p105/tapocli.py:53-55 | `info` retries exactly after a run with empty stdout and empty stderr |
| `Tapocli.AttemptsFrom` | custom_components/tapo_p105/tapocli.py:53-55 | counting from run `i`, the runs before the last one made were all empty, and the last one made stops the loop unless it is the fifth |
| `Tapocli.Attempts` | custom_components/tapo_p105/tapocli.py:53-55 | `info` makes between 1 and 5 helper runs |
| `Tapocli.AttemptsUnique` | custom_components/tapo_p105/tapocli.py:53-55 | the number of runs is the first run that is not empty, or 5 when the first four were all empty |
| `Tapocli.Decode` | custom_components/tapo_p105/tapocli.py:56-61 | the JSON gate: the decoded value when the output parses, `InvalidResponseError` when it does not |
| `Tapocli.InfoResult` | custom_components/tapo_p105/tapocli.py:49-61 | what `info` gives back: a returned value is the decoding of the last run's stdout, made with empty stderr; `InvalidResponseError` means the last run had empty stderr and its stdout does not decode; any other error is the last run's classification |
| `Tapocli.InfoErrorAbortsAt` | custom_components/tapo_p105/tapocli.py:51-55 | after empty runs, a run that raises is the last one made, and `info` raises its error |
| `Tapocli.InfoFirstOutput` | custom_components/tapo_p105/tapocli.py:51-61 | after empty runs, the first run with non-empty stdout and empty stderr is the last one made; `info` returns its decoded value, or raises `InvalidResponseError` when it does not parse |
| `Tapocli.InfoAllEmpty` | custom_components/tapo_p105/tapocli.py:51-61 | five empty runs exhaust the retries, and since `""` does not decode, `info` raises `InvalidResponseError` |
| `Tapocli.TapoCli.constructor` | custom_components/tapo_p105/tapocli.py:18-25 | the wrapper holds the helper path built from the config directory and exactly the given address, username and password |
| `Tapocli.TapoCli.ExecTapocli` | custom_components/tapo_p105/tapocli.py:27-47 | one helper run with `[helper path, ip, username, password, command]` in that order, whose result is the run's classification |
| `Tapocli.TapoCli.Info` | custom_components/tapo_p105/tapocli.py:49-61 | makes `Attempts(runs)` helper runs (1 to 5), each with the `info` argument vector, and returns the specified `info` result |
| `Tapocli.TapoCli.TurnOn` | custom_components/tapo_p105/tapocli.py:63-65 | one helper run with the `on` argument vector; stdout is discarded; it raises exactly the run's classified error |
| `Tapocli.TapoCli.TurnOff` | custom_components/tapo_p105/tapocli.py:67-69 | one helper run with the `off` argument vector; stdout is discarded; it raises exactly the run's classified error |
| `Json.Lookup` | custom_components/tapo_p105/config_flow.py:61-66 | subscripting the device info by a key succeeds exactly on a JSON object that has the key, and gives its value |
| `ConfigFlow.FormError` | custom_components/tapo_p105/config_flow.py:51-60 | `InvalidIpError` alone uses the field `ip` (key `ip_error`); every other kind uses `base`, with `response_error`, `connect_error`, `auth_error` or `unknown_error` |
| `ConfigFlow.FormErrorDistinct` | custom_components/tapo_p105/config_flow.py:51-60 | different error kinds show different messages |
| `ConfigFlow.StepOutcome` | custom_components/tapo_p105/config_flow.py:49-66 | the form is shown again exactly when `info` raised, with exactly one `errors` entry, the one for that kind; otherwise the entry is created with the device name as title and the user input unchanged as data, after the unique id is set to the device's unique id; a missing key fails the step |
| `ConfigFlow.AsyncStepUser` | custom_components/tapo_p105/config_flow.py:39-70 | with no input: the form with empty `errors` and no helper run; with input: exactly `Attempts(runs)` helper runs (1 to 5), each with the configured helper path and the user's own address, username and password, and the outcome `StepOutcome` gives for the `info` result |

## Left out

- Starting the process, the 10-second timeout and capturing output (`tapocli.py:29-35`): OS I/O. The outcome sequence `runs` stands in for them.
- JSON decoding (`json.loads`): a library call, modelled as the parser parameter `parse`. The code calls `json.loads` twice on the same text; the model decodes once, which gives the same value because decoding is deterministic.
- Logging of stdout and stderr (`tapocli.py:40, 46`).
- `isOn` (`tapocli.py:71-74`): it subscripts the bound method `self.info` without calling it, so it always raises `TypeError` and never returns the device state. This is a defect in the source, and the model has no member for it.
- `Tapocli.Join`, `Tapocli.HelperPath`: `pathlib` normalisation is modelled only for an empty, `.` or `./` directory and a single trailing `/`. Repeated slashes (`a//`), `.` segments (`./a`, `a/./b`) and three or more leading slashes are not normalised, so for such a directory the result keeps them where `pathlib` would collapse them.
- `_abort_if_unique_id_configured`: the check against already-configured entries belongs to the host framework. The model records the unique id that is set, in `CreateEntry.uniqueId`, but not the abort.
- The voluptuous schema: it guarantees that the user input holds the three fields as strings, so `UserInput` is a record of three strings.
- `async`/`await` scheduling: the step is modelled as one sequential call.
- Exceptions other than the five error classes, apart from the missing-key subscript, which is the `Unhandled` result.
- `sensor.py`, `binary_sensor.py`, `coordinator.py`: entity, coordinator and device-registry code of the host framework. `coordinator.py` only forwards to `info`.

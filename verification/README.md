# eventful_qualm control plane — a Dafny model

This project models the deterministic core of the eventful_qualm coordinator/agent
control plane and of its ROI helper scripts. All state is immutable, and every
operation is a function over it:

- **Agent side.**
  - The generic command dispatcher (`Dispatcher`).
  - The PING / HOLD / RESUME handler with its `hold` flag and tagged telemetry (`AgentHandler`).
  - The domain service whose tick publishes one telemetry record (`AgentService`).
- **Coordinator side.**
  - The per-agent row table and the ingest step of the telemetry loop (`Tracker`).
- **Contracts.**
  - The v1 wire envelopes (`Wire`).
  - The v1 telemetry record (`TelemetryRecord`), each as a validating parser paired with a dump.
- **Test doubles with state.**
  - The in-memory telemetry and metrics ports (`TelemetryFakes`).
  - The command and subscription ports (`IpcFakes`).
  - The keyboard/mouse and focus ports (`InputFakes`).
- **Configuration.**
  - Environment overrides and the defaults ← TOML section ← environment overlay (`ConfigLoader`).
- **Scripts.**
  - The ROI picker's TOML writer, corner normalisation and save step (`RoiPicker`).
  - The window title match and the `--index` pick shared by both ROI scripts (`WindowSelect`).
  - The OCR checker's ROI-to-rectangle conversion and crop plan (`RoiOcr`).
  - The directory-tree printer over an abstract file tree (`DirTree`).

Two modules hold shared helpers:

- `PyValue` models Python's dynamic values: dicts as ordered association lists, `str()`, `float()`, `int()`, truthiness and `in`.
- `Common` holds strings, `Result`/`Option` and a sorted listing of a set of integers.

Python exceptions are `Err` values that carry the exception's class name.

## Model

| member | source | states |
|---|---|---|
| Dispatcher.Empty | apps/agent/commands.py:8-9 | a new dispatcher has no routes |
| Dispatcher.Route | apps/agent/commands.py:11-14 | after registering, every spelling of the tag that upper-cases the same finds the new handler; every other tag finds what it found before; the key set grows by the upper-cased tag only |
| Dispatcher.CommandType | apps/agent/commands.py:19 | a missing or empty command has type ""; otherwise the type is the command's own "type" value |
| Dispatcher.Handle | apps/agent/commands.py:18-23 | a handler is invoked exactly when one is registered for `str(type).upper()`, and it receives the unmodified command; otherwise the reply echoes a truthy type in its original spelling, or "UNKNOWN" |
| Dispatcher.Dispatch | apps/agent/commands.py:20-23 | with a handler, the result is exactly the handler's result; without one, it is the echo reply |
| Dispatcher.RoutedAnyCase | apps/agent/commands.py:11-20 | a command whose type is any case variant of a registered tag reaches that tag's handler |
| Dispatcher.ReRouteReplaces | apps/agent/commands.py:13 | registering the same tag again in any spelling replaces the earlier handler |
| Dispatcher.MissingCommandIsEmptyType | apps/agent/commands.py:19 | `None` and `{}` behave like a command of type "" |
| Dispatcher.UnknownEchoesOriginal | apps/agent/commands.py:21-22 | an unrouted non-empty tag is echoed as sent, not upper-cased |
| Dispatcher.EchoFrobnicate | apps/agent/commands.py:21-22 | an empty dispatcher answers FROBNICATE with `{"echo": "FROBNICATE"}` |
| AgentHandler.Tagged | apps/agent/__main__.py:52 | a payload without its own agent id gains the dispatcher's id |
| AgentHandler.Publish | apps/agent/__main__.py:50-56 | a working publisher appends exactly one tagged event; a failing one leaves its log unchanged and does not raise |
| AgentHandler.CommandType | apps/agent/__main__.py:59 | the command type is upper-cased before matching |
| AgentHandler.React | apps/agent/__main__.py:60-73 | no payload carries its own agent id, and every reply has three distinct keys with the agent id second |
| AgentHandler.Handle | apps/agent/__main__.py:58-73 | the handler succeeds exactly when the command type is a string |
| AgentHandler.PingKeepsHold | apps/agent/__main__.py:60-62 | for any command whose type is PING in any case, the handler keeps `hold`, publishes one heartbeat and replies `pong=True` with the current hold |
| AgentHandler.HoldAndResume | apps/agent/__main__.py:63-70 | for any command, HOLD in any case sets the flag and RESUME clears it, whatever it was; each publishes the matching "state" event and reports the new flag |
| AgentHandler.HoldIdempotent | apps/agent/__main__.py:63-66 | a second HOLD gives the same state and reply as the first |
| AgentHandler.UnknownKeepsHold | apps/agent/__main__.py:71-73 | any other type keeps `hold`, publishes one "event" and echoes the upper-cased type, or "UNKNOWN" when it is empty |
| AgentHandler.RepliesAndEventsTagged | apps/agent/__main__.py:50-73 | every reply and every newly published event carries the agent id, and the earlier log is untouched |
| AgentHandler.PublishFailureSwallowed | apps/agent/__main__.py:53-56 | a raising publisher changes neither the state update nor the reply |
| AgentHandler.NonStringTypeRaises | apps/agent/__main__.py:59 | any command with a non-string type raises AttributeError before anything changes |
| Tracker.Names | apps/coordinator/tui.py:95 | the row keys are the rows' names, in order |
| Tracker.Seed | apps/coordinator/tui.py:68-70 | one fresh row per configured agent, in configuration order, with `last_seen="-"`, no heartbeats, no fps and state "-"; distinct agents give distinct rows |
| Tracker.SelectedAgent | apps/coordinator/tui.py:91-98 | a row is returned exactly when there is a table and the cursor is in range, and it is the row under the cursor |
| Tracker.UpdateRow | apps/coordinator/tui.py:152-168 | a target row is seen now; its count rises by one exactly for a heartbeat; a heartbeat with "hold" sets HOLD/RUN; a non-empty state message sets the upper-cased state; otherwise the state is kept; fps changes only to a convertible value; name and endpoint never change |
| Tracker.Ingest | apps/coordinator/tui.py:136-168 | an empty or absent message changes nothing; rows are never added, removed or reordered; names and endpoints stay; heartbeat counts never decrease |
| Tracker.MsgParts | apps/coordinator/tui.py:139-140 | a message's topic and data are read back as sent |
| Tracker.KnownAgentOnlyRow | apps/coordinator/tui.py:145-146 | any message whose data names a known agent updates that row only, with the message's topic |
| Tracker.UnknownAgentAllRows | apps/coordinator/tui.py:147-149 | any message without a usable agent id updates every row, with the message's topic |
| Tracker.HeartbeatCounting | apps/coordinator/tui.py:154-155 | a heartbeat raises each target's count by exactly one; other topics and non-targets keep their counts |
| Tracker.SameTimestampForTargets | apps/coordinator/tui.py:151-153 | every target gets the same `last_seen`; the other rows keep theirs |
| Tracker.MalformedDataRaises | apps/coordinator/tui.py:140-141 | truthy data that is not a dict raises before any row changes |
| Tracker.UnhashableIdRaises | apps/coordinator/tui.py:145 | a truthy unhashable agent id raises TypeError before any row changes |
| Wire.ParseCode | libs/shared/contracts/v1/ipc_wire.py:16 | exactly the four code names parse, each to the code of that name |
| Wire.CodeRoundTrip | libs/shared/contracts/v1/ipc_wire.py:16 | every code parses back from its name |
| Wire.ParseErrorInfo | libs/shared/contracts/v1/ipc_wire.py:15-17 | valid exactly with a known code and a string, null or absent detail; a missing detail is None |
| Wire.DumpErrorInfo | libs/shared/contracts/v1/ipc_wire.py:15-17 | the dump has distinct keys |
| Wire.ErrorInfoRoundTrip | libs/shared/contracts/v1/ipc_wire.py:15-17 | every error record survives a dump and re-validation |
| Wire.ParseCommand | libs/shared/contracts/v1/ipc_wire.py:20-24 | valid exactly with version 1 or none, a string `msg_id`, a timestamp or none, and a `command` dict; the result carries those values, and the clock when `ts` is missing |
| Wire.DumpCommand | libs/shared/contracts/v1/ipc_wire.py:20-24 | the dump has distinct keys |
| Wire.CommandRoundTrip | libs/shared/contracts/v1/ipc_wire.py:20-24 | a valid command envelope survives a dump and re-validation, whatever the clock |
| Wire.CommandNormalForm | libs/shared/contracts/v1/ipc_wire.py:20-24 | re-validating the dump of a validated envelope gives the same envelope |
| Wire.ParseTelemetry | libs/shared/contracts/v1/ipc_wire.py:34-39 | valid exactly with version 1 or none, string `msg_id` and `topic`, a timestamp or none, and a `data` dict |
| Wire.DumpTelemetry | libs/shared/contracts/v1/ipc_wire.py:34-39 | the dump has distinct keys |
| Wire.TelemetryRoundTrip | libs/shared/contracts/v1/ipc_wire.py:34-39 | a valid telemetry envelope survives a dump and re-validation |
| Wire.VersionMismatchRejected | libs/shared/contracts/v1/ipc_wire.py:8-35 | any schema version other than 1 is refused by both envelopes |
| Wire.Version999Rejected | libs/shared/contracts/v1/ipc_wire.py:21 | a command of version 999 is refused |
| Wire.CommandDefaults | libs/shared/contracts/v1/ipc_wire.py:21-23 | an id and a command alone get version 1 and the clock's time |
| Wire.ParseResponse | libs/shared/contracts/v1/ipc_wire.py:27-31 | `ok` and `correlates_to` are required and read back; `data` defaults to None; a missing error is None |
| Wire.DumpResponse | libs/shared/contracts/v1/ipc_wire.py:27-31 | the dump has distinct keys |
| Wire.ResponseRoundTrip | libs/shared/contracts/v1/ipc_wire.py:27-31 | every response survives a dump and re-validation |
| Wire.ResponseDefaults | libs/shared/contracts/v1/ipc_wire.py:30-31 | `ok` and `correlates_to` alone give no data and no error |
| Wire.UnknownErrorCodeRejected | libs/shared/contracts/v1/ipc_wire.py:15-31 | an error whose code is not one of the four names invalidates the response |
| TelemetryRecord.ParseState | libs/shared/contracts/v1/telemetry.py:11 | exactly ACTIVE, ASSIST and HOLD parse, each to the state of that name |
| TelemetryRecord.StateRoundTrip | libs/shared/contracts/v1/telemetry.py:11 | every state parses back from its name |
| TelemetryRecord.OptIntField | libs/shared/contracts/v1/telemetry.py:12-13 | a missing or null field is None, an int is kept, anything else is invalid |
| TelemetryRecord.OptRealField | libs/shared/contracts/v1/telemetry.py:15 | a missing or null field is None, a number is kept as a float, anything else is invalid |
| TelemetryRecord.Parse | libs/shared/contracts/v1/telemetry.py:8-15 | succeeds exactly when the dict meets the schema (api "v1" or absent, a string agent id, a listed state, a numeric ts, hp and mana int or None, fps numeric or None); every field is read back, with absent optionals as None; anything else is a ValidationError |
| TelemetryRecord.Dump | libs/shared/contracts/v1/telemetry.py:8-15 | the dump lists every field once, `api` first, in declaration order |
| TelemetryRecord.DumpFields | libs/shared/contracts/v1/telemetry.py:8-15 | each field of the dump reads back as the record's value |
| TelemetryRecord.RoundTrip | libs/shared/contracts/v1/telemetry.py:8-15 | every record survives a dump and re-validation |
| TelemetryRecord.MinimalRecord | libs/shared/contracts/v1/telemetry.py:9-15 | agent id, state and ts alone make a valid record with api "v1" and no optional value |
| TelemetryRecord.FpsPreserved | libs/shared/contracts/v1/telemetry.py:15 | a given fps is kept |
| TelemetryRecord.RunRejected | libs/shared/contracts/v1/telemetry.py:11 | state "RUN" is refused |
| TelemetryRecord.OtherApiRejected | libs/shared/contracts/v1/telemetry.py:9 | any api other than "v1" is refused |
| AgentService.Init | libs/domain/agent/service.py:30-32 | a new service is in ASSIST, not holding and never ticked; its period is `1/max(0.1, hz)`, positive and at most 10 |
| AgentService.SetHold | libs/domain/agent/service.py:34-35 | the flag becomes the truthiness of the value, and nothing else changes |
| AgentService.ReportedState | libs/domain/agent/service.py:40 | HOLD while holding, the context's state otherwise |
| AgentService.PublishedValidates | libs/domain/agent/service.py:42-51 | what a tick stores validates as the configured id, the reported state, no hp or mana, the tick's time and the fps |
| AgentService.Tick | libs/domain/agent/service.py:37-52 | a tick appends exactly one record and keeps the earlier ones; `last_ts` becomes the tick's clock reading; nothing else in the service changes |
| AgentService.TickAllRecords | libs/domain/agent/service.py:37-52 | n ticks publish exactly n records, in order, each with its own tick's clock and fps readings, after what was there |
| AgentService.TickAllState | libs/domain/agent/service.py:37-52 | a run of ticks changes only `last_ts`, which ends at the last clock reading |
| AgentService.TickAllValidates | libs/domain/agent/service.py:39-51 | every record of a run validates with the configured id, the reported state and its own tick's time and fps |
| AgentService.HoldOverlaysState | libs/domain/agent/service.py:34-44 | on a fresh service, the published state is HOLD exactly when `set_hold` got a truthy value, else ASSIST, and the id is the configured one |
| TelemetryFakes.Publish | libs/adapters/telemetry/fakes.py:18-28 | a mapping is appended as is and a model as its dump, after unchanged earlier records; anything else raises TypeError |
| TelemetryFakes.PublishOrder | libs/adapters/telemetry/fakes.py:18-23 | the log lists accepted values in publish order |
| TelemetryFakes.PublishStopsAtReject | libs/adapters/telemetry/fakes.py:24-28 | a rejected value stops the run, and the log holds exactly what came before it |
| TelemetryFakes.Observe | libs/adapters/telemetry/fakes.py:35-36 | one sample holding `float(value)` is appended after unchanged earlier samples; an unconvertible value raises and appends nothing |
| TelemetryFakes.ObserveInt | libs/adapters/telemetry/fakes.py:36 | an int observation is stored as the same number |
| IpcFakes.SendReply | libs/adapters/ipc_zmq/fakes.py:19 | the reply has distinct keys |
| IpcFakes.PairOf | libs/adapters/ipc_zmq/fakes.py:17 | an item of an iterable handed to `dict()` either is a pair or raises ValueError or TypeError |
| IpcFakes.AsPayload | libs/adapters/ipc_zmq/fakes.py:17 | a mapping is used as given, and an object that is neither a mapping nor iterable raises TypeError |
| IpcFakes.PairsToDictOk | libs/adapters/ipc_zmq/fakes.py:17 | `dict(items)` succeeds exactly when every item is a pair |
| IpcFakes.PairsToDictLookup | libs/adapters/ipc_zmq/fakes.py:17 | the built dict has distinct keys, and each key holds the value of the last pair that names it |
| IpcFakes.ItemsRoundTrip | libs/adapters/ipc_zmq/fakes.py:17 | converting a dict's own item pairs gives back that dict |
| IpcFakes.Store | libs/adapters/ipc_zmq/fakes.py:18-19 | the payload is stored under the address; other addresses are unchanged; the reply is `ok=True` echoing the payload |
| IpcFakes.Send | libs/adapters/ipc_zmq/fakes.py:15-19 | succeeds exactly when the command converts to a dict, and then records and echoes that dict; a dict is recorded as given; the coordinator's `SimpleNamespace` raises TypeError and records nothing |
| IpcFakes.LastWriteWins | libs/adapters/ipc_zmq/fakes.py:18 | a second send to an address replaces the first |
| IpcFakes.SendsCommute | libs/adapters/ipc_zmq/fakes.py:18 | sends to different addresses commute |
| IpcFakes.Subscribe | libs/adapters/ipc_zmq/fakes.py:29-30 | the address joins the set, and the queue is untouched |
| IpcFakes.SubscribeIdempotent | libs/adapters/ipc_zmq/fakes.py:29-30 | subscribing twice equals subscribing once |
| IpcFakes.Inject | libs/adapters/ipc_zmq/fakes.py:39-40 | the record joins the back of the queue |
| IpcFakes.Recv | libs/adapters/ipc_zmq/fakes.py:32-36 | an empty queue gives None and no change; otherwise the oldest record is returned and removed |
| IpcFakes.RecvDrains | libs/adapters/ipc_zmq/fakes.py:32-36 | receiving once per pending record returns them all, in order, and empties the queue |
| IpcFakes.Fifo | libs/adapters/ipc_zmq/fakes.py:32-40 | records injected into an idle port come back in injection order |
| IpcFakes.SubscribeDoesNotFilter | libs/adapters/ipc_zmq/fakes.py:29-36 | subscribing changes nothing that `recv` returns |
| InputFakes.Tap | libs/adapters/win_input/fakes.py:28-30 | a tap appends a down then an up record, and the pressed set is unchanged |
| InputFakes.Step | libs/adapters/win_input/fakes.py:33-38 | one event appends its record and adds or discards its scan |
| InputFakes.SendKeysEffect | libs/adapters/win_input/fakes.py:32-38 | one record per event, in order; afterwards a scan is pressed exactly when its last event in the batch was down, or when it was pressed before and has no event in the batch |
| InputFakes.MousePath | libs/adapters/win_input/fakes.py:40-41 | exactly one path record is appended, holding the (x, y, t_ms) points in order |
| InputFakes.Releases | libs/adapters/win_input/fakes.py:45-46 | one up-record per pressed scan, strictly ascending, covering every pressed scan |
| InputFakes.KeyUpAll | libs/adapters/win_input/fakes.py:43-47 | the releases are appended and the pressed set is emptied |
| InputFakes.KeyUpAllIdempotent | libs/adapters/win_input/fakes.py:45-47 | a second release-all changes nothing |
| InputFakes.PressThenReleaseAll | libs/adapters/win_input/fakes.py:32-47 | from nothing pressed, release-all lets go of exactly the scans whose last event was down |
| InputFakes.NewFocus | libs/adapters/win_input/fakes.py:66-68 | a new focus port has no calls and the given answer |
| InputFakes.EnsureForeground | libs/adapters/win_input/fakes.py:70-72 | each call counts one more and returns `will_focus` |
| InputFakes.FocusCountsCalls | libs/adapters/win_input/fakes.py:70-72 | n calls count exactly n |
| ConfigLoader.FieldFor | libs/shared/config/loader.py:66-73 | a suffix maps to a field exactly when some field upper-cases to it, and then to such a field |
| ConfigLoader.EnvField | libs/shared/config/loader.py:69-72 | a name without the "EVQ_" prefix maps to nothing; otherwise it maps to a field whose upper case is the name's upper-cased suffix |
| ConfigLoader.CollectEnv | libs/shared/config/loader.py:58-74 | the overrides have distinct keys; a key is present exactly when some variable maps to it, and every key is a field name |
| ConfigLoader.CollectEnvLookup | libs/shared/config/loader.py:68-73 | each field takes the coerced value of the last variable that maps to it |
| ConfigLoader.PrefixIsCaseSensitive | libs/shared/config/loader.py:69-70 | "evq_agent_id" is ignored |
| ConfigLoader.SuffixIsCaseInsensitive | libs/shared/config/loader.py:66-73 | any case of the suffix is mapped back to the field's own spelling |
| ConfigLoader.EffectiveEnv | libs/shared/config/loader.py:87 | an absent or empty mapping falls back to the process environment |
| ConfigLoader.ProfileName | libs/shared/config/loader.py:88 | the stripped explicit profile, else `EVQ_PROFILE`, else "dev" |
| Common.SeparatorsStripped | libs/shared/config/loader.py:88 | `strip` removes the information separators \x1c-\x1f around a word, as Python's whitespace rules do |
| ConfigLoader.ProfilesDirFor | libs/shared/config/loader.py:25-30 | a non-empty `EVQ_CONFIG_DIR` overrides the repository's profiles directory |
| ConfigLoader.ProfileTable | libs/shared/config/loader.py:33-41 | a missing file is an empty table; a file whose text cannot be read raises the read's own error (UnicodeDecodeError, IsADirectoryError, …), since the read is outside the `try`; text that does not parse raises RuntimeError; never a ValidationError |
| ConfigLoader.Section | libs/shared/config/loader.py:95-97 | the named section when it is a dict, otherwise nothing |
| ConfigLoader.Overlay | libs/shared/config/loader.py:91-101 | the merged keys are those of the defaults and the section, and stay distinct |
| ConfigLoader.OverlayPrecedence | libs/shared/config/loader.py:91-101 | for every key, the environment wins over the TOML section, which wins over the defaults |
| ConfigLoader.DefaultsSurvive | libs/shared/config/loader.py:91-101 | with no profile file and no prefixed variable the defaults are unchanged |
| ConfigLoader.DumpAgent | apps/agent/settings.py:6-11 | the dump has distinct keys |
| ConfigLoader.ValidateAgent | apps/agent/settings.py:6-11 | a given agent id and heartbeat are read back; a missing id is "vm1" |
| ConfigLoader.AgentRoundTrip | apps/agent/settings.py:6-11 | agent settings survive a dump and re-validation |
| ConfigLoader.DumpCoordinator | apps/coordinator/settings.py:6-11 | the dump has distinct keys |
| ConfigLoader.AsStrDict | apps/coordinator/settings.py:6-11 | a `dict[str, str]` field accepts exactly dicts of strings, and the accepted map dumps back to the value |
| ConfigLoader.AsStrList | apps/coordinator/settings.py:6-11 | a `list[str]` field accepts exactly lists of strings, and the accepted list dumps back to the value |
| ConfigLoader.ValidateCoordinator | apps/coordinator/settings.py:6-11 | a given refresh rate is read back; missing agents default to vm1 on port 7788 |
| ConfigLoader.CoordinatorRoundTrip | apps/coordinator/settings.py:6-11 | coordinator settings survive a dump and re-validation |
| ConfigLoader.AgentFromFile | libs/shared/config/loader.py:94-104 | from what reading the profile found: RuntimeError exactly for unparseable text, the read's error for unreadable text, otherwise settings or a ValidationError |
| ConfigLoader.LoadAgent | libs/shared/config/loader.py:80-104 | raises RuntimeError exactly when the profile text does not parse, and the read's own error when the profile cannot be read; with the file missing or parsed, the only failure is a ValidationError |
| ConfigLoader.OverlayDecisive | libs/shared/config/loader.py:91-101 | each key of the merged dict holds the value of the last variable naming it, else the section's, else the default |
| ConfigLoader.ValidateAgentFields | apps/agent/settings.py:6-11 | on a dict holding every field, validation succeeds exactly when each field has its type, and reads each one back |
| ConfigLoader.AgentFromFields | libs/shared/config/loader.py:91-104 | every agent field is the value that decides it, and validation fails exactly when one of those has the wrong type |
| ConfigLoader.LoadAgentPrecedence | libs/shared/config/loader.py:80-104 | end to end, each agent field comes from the last `EVQ_` variable naming it, else the [agent] section, else the default; loading succeeds exactly when the file is missing or parses and every such value has its type |
| ConfigLoader.CoordinatorFromFile | libs/shared/config/loader.py:118-128 | the same for the coordinator settings |
| ConfigLoader.LoadCoordinator | libs/shared/config/loader.py:107-128 | raises RuntimeError exactly when the profile text does not parse, and the read's own error when the profile cannot be read; with the file missing or parsed, the only failure is a ValidationError |
| ConfigLoader.ValidateCoordinatorFields | apps/coordinator/settings.py:6-11 | on a dict holding every field, validation succeeds exactly when each field has its type, and reads each one back |
| ConfigLoader.CoordinatorFromFields | libs/shared/config/loader.py:118-128 | every coordinator field is the value that decides it, and validation fails exactly when one of those has the wrong type |
| ConfigLoader.LoadCoordinatorPrecedence | libs/shared/config/loader.py:107-128 | end to end, the refresh rate, agent map and subscriptions come from the last `EVQ_` variable, else the [coordinator] section, else the default; loading succeeds exactly when the file is missing or parses and every such value has its type |
| ConfigLoader.AgentDefaultsWithoutProfile | libs/shared/config/loader.py:80-104 | without a profile file or prefixed variables the agent settings are the defaults |
| RoiPicker.MetaLine | scripts/window_roi_picker.py:138-142 | a string value is double-quoted, and any other is written bare |
| RoiPicker.PresentKeys | scripts/window_roi_picker.py:136-137 | exactly the listed keys present in the table, in list order |
| RoiPicker.MetaHead | scripts/window_roi_picker.py:137-142 | on a dict, one line for a present key and none for a missing one; `in` on a non-container raises TypeError |
| RoiPicker.MetaLines | scripts/window_roi_picker.py:136-142 | a dict meta never raises; a non-container raises TypeError |
| RoiPicker.MetaLinesOnDict | scripts/window_roi_picker.py:136-142 | one line per present key, in the fixed key order, each rendering that key's value |
| RoiPicker.Fields | scripts/window_roi_picker.py:147-154 | a dict with every key gives the values in key order; subscripting a non-dict raises TypeError |
| RoiPicker.FormLine | scripts/window_roi_picker.py:148-154 | an ROI line starts with the name and an opening brace |
| RoiPicker.RoiLineForms | scripts/window_roi_picker.py:147-155 | pixel form when x/y/w/h are all present, whatever else is; else pct form when all four pct keys are present; else no line; a dict never raises |
| RoiPicker.CollectOk | scripts/window_roi_picker.py:146 | ROIs that each render without raising render as a whole |
| RoiPicker.CollectAppend | scripts/window_roi_picker.py:146 | the lines of two runs of ROIs are the first run's lines followed by the second's |
| RoiPicker.RoiLines | scripts/window_roi_picker.py:146-155 | all-dict ROIs never raise, and there is at most one line per ROI |
| RoiPicker.RoiLinesAppend | scripts/window_roi_picker.py:146-155 | ROI lines come in table order |
| RoiPicker.RoiLineWritten | scripts/window_roi_picker.py:146-155 | every line rendered for a stored ROI appears in the output |
| RoiPicker.RoisValue | scripts/window_roi_picker.py:144 | a missing or falsy ROI table reads as empty |
| RoiPicker.DumpLines | scripts/window_roi_picker.py:131-155 | a well-formed config never raises; "[meta]" leads exactly when meta is present; "[rois]" is always written, first when there is no meta; a truthy non-dict ROI table raises AttributeError |
| RoiPicker.Content | scripts/window_roi_picker.py:156 | the content ends with a newline |
| RoiPicker.ContentLines | scripts/window_roi_picker.py:156 | splitting the content on newlines gives back the lines and a final empty piece |
| RoiPicker.JoinSplit | scripts/window_roi_picker.py:156 | joining newline-free lines and splitting again is the identity |
| RoiPicker.EmptyConfig | scripts/window_roi_picker.py:144-156 | an empty config is written as "[rois]\n" |
| RoiPicker.PixelRoiLine | scripts/window_roi_picker.py:147-150 | a pixel ROI is written as `name = { x = .., y = .., w = .., h = .. }` |
| RoiPicker.PixelFormWins | scripts/window_roi_picker.py:147-151 | pct keys next to a complete pixel set do not change the line |
| RoiPicker.Prepare | scripts/window_roi_picker.py:247-256 | a missing meta gets the default block and a missing ROI table an empty one; other keys are untouched |
| RoiPicker.DefaultMetaLines | scripts/window_roi_picker.py:247-254 | the default meta is written as name, width, height, coordinate space and units, in that order |
| RoiPicker.FreshConfigDump | scripts/window_roi_picker.py:246-258 | a fresh config is written as the default meta block, a blank line and an empty "[rois]" |
| RoiPicker.MetaOnlyDump | scripts/window_roi_picker.py:133-145 | a config with meta and no ROIs is "[meta]", the meta lines, a blank line and "[rois]" |
| RoiPicker.CornersToRoi | scripts/window_roi_picker.py:310-315 | width and height are non-negative, and the x and y spans are exactly those of the two corners |
| RoiPicker.CornersSymmetric | scripts/window_roi_picker.py:310-315 | the order of marking the corners does not matter |
| RoiPicker.CornersUnique | scripts/window_roi_picker.py:310-315 | the normalised ROI is the only non-negative box spanning both corners |
| RoiPicker.WithRoiTable | scripts/window_roi_picker.py:319 | a missing ROI table is added empty, and nothing else changes |
| RoiPicker.StoreRoi | scripts/window_roi_picker.py:320 | storing succeeds exactly into a dict table, adds or replaces only that name, and leaves other keys alone; otherwise TypeError |
| RoiPicker.SaveRoi | scripts/window_roi_picker.py:316-322 | an empty stripped name saves nothing; otherwise it succeeds exactly when the ROI table is a dict, and the config then holds the corner ROI under the stripped name, every other ROI of the table, and every other key as loaded; failure is TypeError |
| RoiPicker.SaveIntoNonDictRaises | scripts/window_roi_picker.py:318-320 | a present ROI table that is not a dict makes saving raise |
| RoiPicker.SaveKeepsWellFormed | scripts/window_roi_picker.py:316-322 | saving into a well-formed config succeeds and keeps it writable |
| RoiPicker.SavedRoiWritten | scripts/window_roi_picker.py:316-322 | the saved ROI's pixel line is in the written file |
| RoiPicker.WrittenRoi | scripts/window_roi_picker.py:146-150 | a stored pixel ROI's line is in the output |
| WindowSelect.CollectSound | scripts/window_roi_picker.py:100-110 | everything collected comes from an accepted window |
| WindowSelect.CollectComplete | scripts/window_roi_picker.py:100-110 | every accepted window is collected |
| WindowSelect.CollectMonotone | scripts/window_roi_picker.py:100-110 | a stricter test collects a subset |
| WindowSelect.AcceptedFrom | scripts/window_roi_picker.py:100-113 | the positions the enumeration callback accepts, strictly increasing, each accepted, none missed |
| WindowSelect.CollectFrom | scripts/window_roi_picker.py:100-113 | from any position on, match `j` is the window at the `j`-th accepted position |
| WindowSelect.CollectInOrder | scripts/window_roi_picker.py:100-113 | the matches are the accepted windows in enumeration order, one per accepted window |
| WindowSelect.FindWindows | scripts/window_roi_picker.py:97-113 | at most one result per window; order and multiplicity are stated by WindowSelect.FindWindowsInOrder |
| WindowSelect.FindWindowsInOrder | scripts/window_roi_picker.py:97-113 | match `j` is the window at the `j`-th visible matching position; the positions increase and every visible matching window has one, so `--index` numbers the matches in enumeration order |
| WindowSelect.FindWindowsSound | scripts/window_roi_picker.py:101-109 | every window found is visible, titled and matching |
| WindowSelect.FindWindowsComplete | scripts/window_roi_ocr_check.py:99-115 | every visible matching window is found |
| WindowSelect.ExactNarrows | scripts/window_roi_picker.py:108 | an exact match is also a substring match |
| WindowSelect.ExactSubset | scripts/window_roi_ocr_check.py:106-111 | `--exact` finds a subset of the substring search |
| WindowSelect.MatchIgnoresQueryCase | scripts/window_roi_picker.py:106-108 | the query's case does not matter |
| WindowSelect.PickAsWritten | scripts/window_roi_picker.py:213-226 | no match exits 1; a non-zero index picks that 1-based match or exits 2; no index, or index 0, picks the first match |
| WindowSelect.IndexZeroAccepted | scripts/window_roi_ocr_check.py:210-218 | `--index 0` selects the first match, unlike every other out-of-range index |
| WindowSelect.Pick1Based | scripts/window_roi_picker.py:219-224 | a given index is accepted exactly when it lies in 1..n and picks that match |
| WindowSelect.PicksAgreeExceptZero | scripts/window_roi_picker.py:219-226 | the two picks agree on every input except an explicit `--index 0` |
| RoiOcr.RoundHalfEven | scripts/window_roi_ocr_check.py:132 | the result is within one half of the value, and halves go to the even neighbour |
| RoiOcr.RoundIsNearest | scripts/window_roi_ocr_check.py:132 | no integer is closer to the value than its rounding |
| RoiOcr.RoundUnique | scripts/window_roi_ocr_check.py:132 | an integer closer than one half is the rounding |
| RoiOcr.RoundWhole | scripts/window_roi_ocr_check.py:132 | a whole number rounds to itself |
| RoiOcr.PctToPx | scripts/window_roi_ocr_check.py:131-132 | a convertible value gives a pixel within one half of value × total; a `float()` error propagates |
| RoiOcr.PctExactOnWholePixels | scripts/window_roi_ocr_check.py:131-132 | integer percentages scale exactly; 1.0 gives the total and 0.0 gives 0 |
| RoiOcr.IntField | scripts/window_roi_ocr_check.py:137 | a present field converts with `int()`; a non-dict raises TypeError |
| RoiOcr.PctField | scripts/window_roi_ocr_check.py:140-143 | a present field converts with `_pct_to_px`; a non-dict raises TypeError |
| RoiOcr.PixelRect | scripts/window_roi_ocr_check.py:136-138 | the pixel form, whose contract is stated by RoiOcr.PixelExact |
| RoiOcr.PctRect | scripts/window_roi_ocr_check.py:139-144 | the fraction form, whose contract is stated by RoiOcr.PctScales and RoiOcr.PctAxesIndependent |
| RoiOcr.Four | scripts/window_roi_ocr_check.py:136-144 | four conversions succeed together or fail with the first error |
| RoiOcr.RoiToRect | scripts/window_roi_ocr_check.py:135-145 | pixel keys give the pixel rectangle, else pct keys give the scaled one, else ValueError; a non-container raises TypeError |
| RoiOcr.PixelExact | scripts/window_roi_ocr_check.py:136-138 | integer pixel fields are returned exactly |
| RoiOcr.PixelPrecedence | scripts/window_roi_ocr_check.py:136-139 | with the pixel keys present the meta size is irrelevant |
| RoiOcr.PctScales | scripts/window_roi_ocr_check.py:139-144 | each pct coordinate is within one half of its fraction times the meta size of its own axis |
| RoiOcr.PctFieldFloat | scripts/window_roi_ocr_check.py:140-143 | a float pct field converts within one half |
| RoiOcr.PctAxesIndependent | scripts/window_roi_ocr_check.py:140-143 | x and w depend only on the meta width, and y and h only on the meta height |
| RoiOcr.MetaSize | scripts/window_roi_ocr_check.py:264-268 | no meta gives the client size; a meta that is not a table raises AttributeError |
| RoiOcr.MetaSizeDefaults | scripts/window_roi_ocr_check.py:267-268 | each dimension the meta gives is used, and each it omits is the client's |
| RoiOcr.KeepConverted | scripts/window_roi_ocr_check.py:279-284 | no more entries than the table; soundness, completeness and order are stated by KeepSound, KeepComplete and KeepOrdered |
| RoiOcr.KeptIndex | scripts/window_roi_ocr_check.py:279-284 | each kept entry comes from a table position whose ROI converts to it |
| RoiOcr.KeptInOrder | scripts/window_roi_ocr_check.py:279-284 | kept entries follow the table's order |
| RoiOcr.KeepExact | scripts/window_roi_ocr_check.py:279-284 | an entry is kept exactly when a table entry of that name converts to its rectangle |
| RoiOcr.KeepOrdered | scripts/window_roi_ocr_check.py:279-284 | of two kept entries, the earlier comes from the earlier table entry |
| RoiOcr.KeepSound | scripts/window_roi_ocr_check.py:279-284 | every kept rectangle converts from a ROI of that name |
| RoiOcr.KeepComplete | scripts/window_roi_ocr_check.py:279-284 | every ROI that converts is kept |
| RoiOcr.Rects | scripts/window_roi_ocr_check.py:279-284 | the ROIs drawn, at most one per table entry; stated by RectsSound and RectsComplete |
| RoiOcr.RectsSound | scripts/window_roi_ocr_check.py:279-284 | every rectangle drawn is the conversion of a stored ROI |
| RoiOcr.RectsComplete | scripts/window_roi_ocr_check.py:279-284 | a ROI that fails to convert is skipped; every other ROI is drawn |
| RoiOcr.CropPlan | scripts/window_roi_ocr_check.py:264-284 | succeeds exactly when the meta size converts and the ROI value is missing or a table; a meta error propagates; a non-table ROI value raises AttributeError; no ROIs give no crops; otherwise the plan is the table's converting ROIs at the meta size |
| RoiOcr.CropPlanExact | scripts/window_roi_ocr_check.py:264-284 | the plan holds exactly the ROIs that convert at the meta size, each with its rectangle |
| RoiOcr.CropPlanOrdered | scripts/window_roi_ocr_check.py:264-284 | the plan follows the table's order |
| DirTree.Excludes | scripts/tree.py:73 | the excluded names are the defaults plus the extra ones |
| DirTree.KeyLessTotal | scripts/tree.py:40 | any two entries are ordered or share a key |
| DirTree.KeyLessTransitive | scripts/tree.py:40 | the sort key order is transitive |
| DirTree.Insert | scripts/tree.py:40 | one step of the stable sort; its contract is stated by InsertPermutes, InsertSorted and InsertWithKey |
| DirTree.InsertPermutes | scripts/tree.py:40 | inserting keeps the entries |
| DirTree.InsertSorted | scripts/tree.py:40 | inserting into a sorted listing keeps it sorted |
| DirTree.Sort | scripts/tree.py:40 | `sorted` by (is file, lower-cased name); its contract is stated by SortSorted, SortStable and DirsFirst |
| DirTree.InsertWithKey | scripts/tree.py:40 | inserting puts the new entry ahead of every entry with the same key |
| DirTree.SortStable | scripts/tree.py:40 | the sort is stable: entries with equal keys keep their input order |
| DirTree.SortSorted | scripts/tree.py:40 | the listing is sorted by (is file, lower-cased name) and is a permutation of the children |
| DirTree.DirsFirst | scripts/tree.py:40 | directories come before files |
| DirTree.Keep | scripts/tree.py:41-47 | the entries that are neither excluded nor ".pyc", in order; stated by KeepExactly and KeepInsertSkipped |
| DirTree.KeepExactly | scripts/tree.py:41-47 | exactly the entries that are neither excluded nor ".pyc" are kept |
| DirTree.KeepInsertSkipped | scripts/tree.py:42-46 | a skipped entry changes nothing wherever the sort puts it |
| DirTree.Blocks | scripts/tree.py:49-55 | one block per kept entry |
| DirTree.Block | scripts/tree.py:49-55 | each entry has at least its own line |
| DirTree.TreeLines | scripts/tree.py:33-58 | the first line is the root's name; a depth bound below 1 gives only that line; a file root raises once the walk starts |
| DirTree.FlattenAppend | scripts/tree.py:49-55 | the lines of consecutive blocks are concatenated in order |
| DirTree.BlocksAt | scripts/tree.py:49-55 | block i belongs to entry i and is the last exactly for the last entry |
| DirTree.CountInsert | scripts/tree.py:40 | inserting an entry into a listing adds exactly that entry's lines |
| DirTree.CountSort | scripts/tree.py:40 | sorting does not change the line count |
| DirTree.CountKeep | scripts/tree.py:42-47 | skipped entries contribute no lines |
| DirTree.Walk | scripts/tree.py:36-55 | one directory's listing down to the depth bound; stated by WalkCount, WalkPrefix, EntryLine and EntrySubtree |
| DirTree.WalkCount | scripts/tree.py:36-55 | a walk has one line per kept entry within the depth bound |
| DirTree.TreeLineCount | scripts/tree.py:47-58 | the listing has one line for the root plus one per kept entry within the depth bound |
| DirTree.WalkPrefix | scripts/tree.py:49-55 | every line of a walk starts with its prefix |
| DirTree.EntryLine | scripts/tree.py:49-52 | each kept entry's line is the prefix, "└── " for the last sibling or "├── " otherwise, then the name |
| DirTree.EntrySubtree | scripts/tree.py:53-55 | the lines after a directory's own line are its walk one level deeper, under the prefix plus "    " for the last sibling or "│   " otherwise |
| DirTree.SkippedChildIgnored | scripts/tree.py:42-46 | an excluded child, with its whole subtree, leaves the listing as if it were absent |
| DirTree.Render | scripts/tree.py:76-78 | plain output is the lines joined by newlines; `--markdown` wraps exactly that text in "```text\n" and "\n```" |

## Left out

- Transport: the ZMQ adapter raises `NotImplementedError` and the in-process adapter returns canned values. There is no envelope codec, retry loop or `poll_once` to model.
- Threads, the Textual application, table rendering, key bindings and `_send_command` (apps/coordinator/tui.py:32-125, 170-187) are not modelled.
- The agent's main loop, heartbeat timer and capture worker (apps/agent/__main__.py:78-176) are not modelled, because they are timing and OS code.
- The liveness classification, sorting and status counts exercised by the coordinator tests are not modelled. They do not exist in the coordinator module shown.
- `FakeHumanInputPort` (libs/adapters/win_input/fakes.py:50-62) is left out, because it only stores and calls opaque callbacks.
- Clocks, `time.sleep` and the perf port are parameters: a tick takes the clock reading and the fps reading as arguments.
- Floats are exact reals throughout.
  - `round` is half-to-even over reals, not over binary doubles.
  - `float()` of a string accepts `[sign]digits[.digits]` only: no exponents, `inf`, `nan` or underscore separators.
- PyValue.ParseIntText: `int()` of a string accepts `[sign]digits` only; underscore separators such as `1_000`, which Python accepts, are rejected.
  - `str()` of a float is exact only for short decimals; other floats, lists and dicts render as a placeholder text.
- String case mapping is ASCII-only; Python's Unicode case rules are not modelled. `strip`, `int()` and `float()` skip exactly the characters Python's `str.isspace` accepts.
- Dicts are ordered association lists with Python's insertion-order update. Hash-based behaviour is limited to an unhashable agent id raising TypeError.
- `json.loads` in `_coerce_env_value`, reading the profile file and the process environment are parameters of the loaders. `tomllib` parsing is reduced to missing / unparseable / parsed table.
- ConfigLoader.LoadAgentPrecedence: stated only for a section with distinct keys, as every parsed TOML table has, and only when no two keys of the merged dict are equal up to case. Python maps an `EVQ_` suffix to a field through a dict built from a set of names, so with two such keys (say `agent_id` and a section key `AGENT_ID`) which one the variable sets depends on set iteration order, and the model does not promise either answer.
- ConfigLoader.LoadCoordinatorPrecedence: the same two conditions for the [coordinator] section, for the same reason.
- Pydantic validation is modelled as strict type checks. Lax coercions (e.g. the string "1" for an int) and datetime parsing of `ts` are not modelled; a timestamp is any number or string.
- IpcFakes.PairOf: a pair whose key is hashable but not a string (an int, say) is accepted by Python's `dict()`; the model reports it as a NonStringKey error, because its dicts have string keys only.
- `recv`'s timeout is not modelled: an empty queue answers None at once.
- The Win32 calls (window enumeration, `--list`, `--hwnd`, `--active`, client rectangles and cursor positions) are left out, and so are the mss capture, the PIL drawing and cropping, and OCR. Windows, corners and the client size are inputs.
- `_load_toml` in the scripts is an input: the loaded config is given as a value, and a missing file is the empty config.
- The 'f' (full-window ROI) and 'r' (reload) keys of the picker are not modelled; only 'n' (name and save) is.
- DirTree: `root.resolve()` is not modelled, so the root's name is used as given. Permission errors from `iterdir`, symlinks and the `--out` file write are not modelled either.
- RoiPicker.RoiLine: its contract is stated by lemma RoiPicker.RoiLineForms rather than on the function itself.

## Findings

| source | as written | input that shows it | evidently intended | confidence | as-written member | corrected member |
|---|---|---|---|---|---|---|
| scripts/window_roi_picker.py:219-224 | `if args.index:` treats an index of 0 as "no index given", so the first match is used | `--index 0` with at least one matching window: the first window is chosen, while `--index -1` exits with code 2; scripts/window_roi_ocr_check.py:210-216 has the same test | `--index` is 1-based, so 0 is out of range and should exit 2 like every other out-of-range index | not executed | WindowSelect.PickAsWritten, WindowSelect.IndexZeroAccepted | WindowSelect.Pick1Based, WindowSelect.PicksAgreeExceptZero |

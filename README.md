# Robot Framework listener layer, modelled in Dafny

This project models `src/robot/output/listeners.py` of Robot Framework. That
file is the layer that takes the run's listeners into use and forwards every
event of a test run to them.

- **Taking listeners into use.** `Listeners.__init__` and
  `_import_listeners` wrap each configured listener, an object or a name, in
  a `ListenerProxy`. A listener that cannot be imported, or that does not
  declare `ROBOT_LISTENER_API_VERSION` 2, is logged as an error and skipped.
  The others keep their configured order.
- **Events.** For every event (`start_suite`, `end_suite`, `start_test`,
  `end_test`, `start_keyword`, `end_keyword`, `imported`, `log_message`,
  `message`, `output_file`, `close`) the registry calls the matching method
  of every adapter, in order.
  - Each call gets a freshly built payload. An attribute value that is
    dict-like or list-like is passed on as a new dict or list holding the
    container's current contents (a shallow copy). Later additions to or
    removals from that container do not reach the listener.
  - `call_method` catches whatever a listener raises. It logs one error and
    one info entry, and the next listener is still called.
- **Recursion guard.** `no_recursion` wraps every public method. While one
  notification is in progress, any other notification does nothing, for
  example a message a listener logs from inside `log_message`. The flag is
  cleared only when the wrapped body returns normally. If building a payload
  raises (a domain object lacks an attribute), the exception propagates and
  the flag stays set.
- **Keyword types.** `start_keyword`/`end_keyword` report a derived keyword
  type.
  - A plain keyword (`kw`) reports the pending setup/teardown label, or
    `Keyword` when none is pending.
  - Any other type reports `Test <Type>` or `Suite <Type>`, depending on
    whether a test is running. A start stores that label in the single
    pending slot and an end clears it.

The modules follow the structure of the code:

| module | file | contents |
|---|---|---|
| `Wrappers` | `wrappers.dfy` | `Option`, `Result` |
| `PyText` | `pytext.dfy` | the ASCII parts of Python's `str.title()`, `str.strip()`, `int(str)` and `str(int)` the layer relies on |
| `PyValues` | `pyvalues.dfy` | listener-side values (`Data`); the run's domain objects (`Item`), whose list-like and dict-like attributes are heap objects (`LiveList`, `LiveDict`) that the run mutates; `_take_copy_of_mutable_value` |
| `Payloads` | `payloads.dfy` | `_get_attr_names`, `_get_attrs`, the payload of every event, and the keyword type state machine |
| `Logging` | `logging.dfy` | the run's logger (`LOGGER.error`, `LOGGER.info`) as an append-only class |
| `ListenerProxies` | `proxies.dfy` | listeners, `ListenerProxy` (import, name, `_get_version`), what `call_method` logs, and a transcript class that records every listener invocation |
| `ListenerRegistry` | `registry.dfy` | class `Listeners`: its fields, the guard, `call_method`, the delivery loop and one method per event |
| `Scenarios` | `scenarios.dfy` | whole runs through `Listeners`: re-entrant logging, the stuck guard, copied metadata, a failing listener among two |

A listener is a record: an identity, its version attribute, and what each
method it defines does when called. A method can return, raise (with a
message and details), or log a message. A logged message comes straight back
to `Listeners.log_message`. A method the listener does not define does
nothing. Every listener invocation is appended to a `Transcript`. This makes
"which listener saw which arguments, in which order" a checkable part of the
state.

## Model

| member | source | states |
|---|---|---|
| PyText.Title | src/robot/output/listeners.py:141 | `str.title()`: same length; each character is upper-cased when it starts a word (no cased character before it) and lower-cased otherwise |
| PyText.TitleIdempotent | src/robot/output/listeners.py:141 | title-casing a title-cased string changes nothing |
| PyText.TitleLowerWord | src/robot/output/listeners.py:141 | a lower-case word is title-cased by capitalising its first letter only (`setup` becomes `Setup`) |
| PyText.ParseIntRoundTrip | src/robot/output/listeners.py:224 | `int()` of the decimal text of any integer gives that integer back |
| PyValues.TakeCopy | src/robot/output/listeners.py:192-197 | a dict-like value becomes a dict with the container's current entries; a list-like value becomes a list with its current items; any other value is passed on unchanged |
| PyValues.Item.GetAttr | src/robot/output/listeners.py:188-190 | `getattr` succeeds exactly when the object has the attribute, with its value; otherwise it raises `AttributeError` naming the attribute |
| Payloads.RemoveFirst | src/robot/output/listeners.py:185 | `list.remove(x)`: drops exactly the first occurrence of `x`; one element shorter, and the multiset loses one `x` |
| Payloads.AttrNames | src/robot/output/listeners.py:179-186 | the name list `_get_attr_names` returns, extra by extra (no ensures of its own: `GetAttrNames`, `AttrNamesAppend` and `RemovalMarker` state its properties) |
| Payloads.GetAttrNames | src/robot/output/listeners.py:179-186 | the loop that builds the name list yields the list that `AttrNames` specifies |
| Payloads.AttrNamesAppend | src/robot/output/listeners.py:179-186 | extra names without a `-` are appended to the defaults in order |
| Payloads.RemovalMarker | src/robot/output/listeners.py:184-185 | a `-x` marker removes the first `x` when there is one and changes nothing otherwise; the number of `x` drops by one |
| Payloads.KeywordStartAttrNames | src/robot/output/listeners.py:119 | `start_keyword` asks for `doc`, `starttime`, `args`, `assign`, `kwname`, `libname`: `id` and `longname` are removed; `message` is absent, so its marker does nothing |
| Payloads.KeywordEndAttrNames | src/robot/output/listeners.py:125 | `end_keyword` asks for `doc`, `starttime`, `endtime`, `elapsedtime`, `status` and the four keyword names: `id`, `longname` and `message` are removed |
| Payloads.GetAttrs | src/robot/output/listeners.py:175-177 | the payload is built exactly when every name is an attribute; its keys are exactly the names, each value a copy of the attribute; otherwise it raises for a missing name |
| Payloads.Attr | src/robot/output/listeners.py:188-190 | `_get_attr_value`: succeeds exactly when the attribute exists, with a copy of its value; otherwise `AttributeError` naming it |
| Payloads.ChildNames | src/robot/output/listeners.py:82-83 | `[t.name for t in ...]`: a list of children gives their names; an empty string or dict gives `[]`; a non-empty string or dict raises `AttributeError` for `name` (its elements have none); a value that cannot be iterated raises `TypeError`; a missing attribute raises `AttributeError` |
| Payloads.SuiteAttrs | src/robot/output/listeners.py:80-86 | the suite extras are built exactly when `tests` and `suites` give child lists and `test_count` and `source` exist; keys are exactly `tests`, `suites`, `totaltests`, `source`; `source` falls back to `''` |
| Payloads.NamedCall | src/robot/output/listeners.py:78 | the arguments are `(item.name, attrs)`; building them fails if the attributes failed or there is no `name` |
| Payloads.StartSuiteCall | src/robot/output/listeners.py:74-78 | the arguments of `start_suite` (no ensures of its own: `StartSuitePayload` and `NamedCall` state its properties) |
| Payloads.EndSuiteCall | src/robot/output/listeners.py:88-96 | the arguments of `end_suite` (no ensures of its own: `EndSuiteSucceeds`, `EndSuiteKeys` and `EndSuitePayload` state its properties) |
| Payloads.TestCall | src/robot/output/listeners.py:98-115 | the arguments of `start_test`/`end_test` (no ensures of its own: `TestPayload` and `NamedCall` state its properties) |
| Payloads.MessageCall | src/robot/output/listeners.py:148-154 | the single argument of `log_message`/`message`: the message dict (no ensures of its own: `MessageDict` states its properties) |
| Payloads.StartSuitePayload | src/robot/output/listeners.py:74-78 | `start_suite` payload: built iff the start attributes, `metadata` and the suite extras are available; keys are those names plus the suite keys; named values copied; suite keys from the extras |
| Payloads.EndSuiteSucceeds | src/robot/output/listeners.py:92-96 | the `end_suite` payload is built iff the end attributes, `metadata`, `stat_message` and the suite extras are available |
| Payloads.EndSuiteKeys | src/robot/output/listeners.py:92-96 | the `end_suite` payload has exactly the end attributes, `metadata`, `statistics` and the suite keys |
| Payloads.EndSuitePayload | src/robot/output/listeners.py:92-96 | in the `end_suite` payload the named values are copies, `statistics` is the suite's `stat_message`, and the suite keys come from the extras |
| Payloads.TestPayload | src/robot/output/listeners.py:98-115 | `start_test`/`end_test` payload: built iff the start (end) attributes, `tags`, `critical` and `template` exist; `critical` is `yes`/`no` by truthiness; `template` falls back to `''` |
| Payloads.MessageDict | src/robot/output/listeners.py:156-158 | the message dict is built iff `timestamp`, `message`, `level`, `html` exist; it has exactly those keys, the first three as copies of the attributes and `html` as `yes`/`no` by truthiness |
| Payloads.SetupOrTeardownType | src/robot/output/listeners.py:139-141 | the label is `Test ` or `Suite ` (by whether a test is running) followed by the title-cased keyword type, nothing else |
| Payloads.KeywordTypeOf | src/robot/output/listeners.py:129-137 | a `kw` reports the pending label or `Keyword` and leaves the slot alone; any other type reports `Test`/`Suite` plus its title-cased type, stored on start and cleared on end |
| Payloads.KeywordType | src/robot/output/listeners.py:129-141 | the type derivation raises exactly when the keyword has no string `type` |
| Payloads.KeywordStep | src/robot/output/listeners.py:117-127 | one listener's worth of a keyword event: the new slot and the arguments (no ensures of its own: `KeywordPayload` and `KeywordStepRepeats` state its properties) |
| Payloads.KeywordPayload | src/robot/output/listeners.py:117-127 | a keyword payload is built iff the names, the type and `name` are available; the slot changes only when the type was derived; the payload holds the copied names plus `type` |
| Payloads.KeywordStepRepeats | src/robot/output/listeners.py:117-127 | re-deriving the type for the next listener, from the slot the previous derivation left, gives the same type and slot |
| Payloads.PlainKeywordsInherit | src/robot/output/listeners.py:133-134 | a run of plain keywords reports the pending label (or `Keyword`) for each and never changes the slot |
| Payloads.TestSetupType | src/robot/output/listeners.py:139-141 | a `setup` keyword inside a running test is reported as `Test Setup` |
| Payloads.SuiteTeardownType | src/robot/output/listeners.py:139-141 | a `teardown` keyword outside a test is reported as `Suite Teardown` |
| Payloads.SetupScenario | src/robot/output/listeners.py:129-137 | setup start, nested keyword start/end, setup end, then a keyword: all four setup events report the setup label, the last keyword reports `Keyword`, and the slot ends empty |
| Payloads.SingleSlotScenario | src/robot/output/listeners.py:129-137 | the slot is not a stack: an inner setup/teardown inside an outer one overwrites the label, and its end clears the slot for everything after |
| Logging.CountLevelAppend | src/robot/output/listeners.py:241-243 | counting log entries of a level distributes over appending |
| Logging.Logger.LogError | src/robot/output/listeners.py:241-242 | `LOGGER.error` appends one error entry |
| Logging.Logger.LogInfo | src/robot/output/listeners.py:243 | `LOGGER.info` appends one info entry |
| ListenerProxies.IntOf | src/robot/output/listeners.py:224 | `int(v)`: an int is itself, a string is parsed, `None`, lists and dicts fail |
| ListenerProxies.GetVersion | src/robot/output/listeners.py:222-234 | a listener is accepted iff its version attribute exists and `int()` of it is 2; a missing attribute and an unsupported value give their two `DataError`s |
| ListenerProxies.VersionText | src/robot/output/listeners.py:224-226 | a version written as the decimal text of `n` is accepted exactly when `n` is 2 |
| ListenerProxies.ImportListener | src/robot/output/listeners.py:213-220 | `_import_listener`: an object with its type name, a loaded name with its name, or the import error (no ensures of its own: `NewProxy` states its properties) |
| ListenerProxies.NewProxy | src/robot/output/listeners.py:207-220 | an adapter has version 2; an object keeps its type name; a name that cannot be imported fails with the import error; an imported name is checked like an object: accepted iff `GetVersion` accepts it, and otherwise failing with `GetVersion`'s error |
| ListenerProxies.ImportedProxies | src/robot/output/listeners.py:64-67 | the adapters `_import_listeners` yields (no ensures of its own: `ImportSnoc`, `ImportedConcat`, `ImportAccounting` and `ImportAllLoadable` state its properties) |
| ListenerProxies.ImportErrors | src/robot/output/listeners.py:68-72 | the errors `_import_listeners` logs (no ensures of its own: `ImportSnoc`, `ImportErrorsConcat` and `ImportAccounting` state its properties) |
| ListenerProxies.ImportSnoc | src/robot/output/listeners.py:64-72 | one more configured listener adds its adapter, or its logged error, at the end |
| ListenerProxies.ImportedConcat | src/robot/output/listeners.py:64-67 | the adapters of concatenated configurations are the concatenated adapters |
| ListenerProxies.ImportErrorsConcat | src/robot/output/listeners.py:68-72 | the logged import errors of concatenated configurations are the concatenated errors |
| ListenerProxies.ImportAccounting | src/robot/output/listeners.py:64-72 | every configured listener gives either an adapter or one error-level entry, and every adapter has version 2 |
| ListenerProxies.ImportAllLoadable | src/robot/output/listeners.py:64-72 | when every listener loads, the adapters are exactly the listeners in order and nothing is logged |
| ListenerProxies.Transcript.Record | src/robot/output/listeners.py:237-238 | a listener invocation is appended to the transcript |
| ListenerProxies.CallLog | src/robot/output/listeners.py:236-243 | a call that does not raise logs nothing; a raising call logs one error, then one info entry |
| ListenerProxies.Broadcast | src/robot/output/listeners.py:165-167 | the invocations a notification makes (no ensures of its own: `BroadcastInOrder` and `BroadcastSnoc` state its properties) |
| ListenerProxies.CallLogs | src/robot/output/listeners.py:236-243 | the entries a notification logs (no ensures of its own: `CallLogsCount` and `BroadcastSnoc` state its properties) |
| ListenerProxies.BroadcastInOrder | src/robot/output/listeners.py:165-167 | every adapter is invoked once, in list order, with the same arguments |
| ListenerProxies.CallLogsCount | src/robot/output/listeners.py:236-243 | a broadcast logs exactly one error and one info entry per raising listener, and nothing else |
| ListenerProxies.BroadcastSnoc | src/robot/output/listeners.py:165-167 | the invocations and log of one more adapter are appended at the end |
| ListenerRegistry.Listeners.constructor | src/robot/output/listeners.py:55-59 | the adapters are those `_import_listeners` yields, their errors are logged, no test is running and no setup/teardown is pending |
| ListenerRegistry.Listeners.NonZero | src/robot/output/listeners.py:61-62 | `__nonzero__`: true exactly when some listener was taken into use (no ensures of its own: `Scenarios.Register` states it for registered listeners) |
| ListenerRegistry.Listeners.ImportListeners | src/robot/output/listeners.py:64-72 | the loop yields the adapters in order and logs one error per listener that cannot be taken into use |
| ListenerRegistry.Listeners.CallMethod | src/robot/output/listeners.py:236-243 | the invocation is recorded; what it raises is logged as an error and an info entry; a message it logs is dropped by the guard; the registry's fields are untouched |
| ListenerRegistry.Listeners.Deliver | src/robot/output/listeners.py:165-167 | the loop calls every adapter in order: transcript and log grow by the whole broadcast |
| ListenerRegistry.Listeners.CallNext | src/robot/output/listeners.py:166-167 | one turn of that loop extends the transcript and log from the first `i` adapters to the first `i + 1` |
| ListenerRegistry.Listeners.StartSuite | src/robot/output/listeners.py:74-78 | guarded `start_suite`: skipped while another notification runs; raises, leaving the guard set, when the payload cannot be built; otherwise every adapter gets the payload and the guard is cleared |
| ListenerRegistry.Listeners.EndSuite | src/robot/output/listeners.py:88-96 | guarded `end_suite`, as `start_suite`, with the end payload |
| ListenerRegistry.Listeners.StartTest | src/robot/output/listeners.py:98-104 | guarded `start_test`: marks a test as running (unless skipped by the guard), then delivers as `start_suite` does |
| ListenerRegistry.Listeners.EndTest | src/robot/output/listeners.py:106-115 | guarded `end_test`: marks no test as running (unless skipped), then delivers |
| ListenerRegistry.Listeners.NotifyKeyword | src/robot/output/listeners.py:117-127 | guarded keyword event: every adapter gets the payload with the derived type; with at least one adapter the slot is left as the derivation leaves it; with none it is untouched |
| ListenerRegistry.Listeners.StartKeyword | src/robot/output/listeners.py:117-121 | `start_keyword` is a keyword event with `start` true |
| ListenerRegistry.Listeners.EndKeyword | src/robot/output/listeners.py:123-127 | `end_keyword` is a keyword event with `start` false |
| ListenerRegistry.Listeners.Imported | src/robot/output/listeners.py:143-146 | guarded `imported`: `<type>_import(name, attrs)` reaches every adapter; for the modelled import types it cannot raise |
| ListenerRegistry.Listeners.LogMessage | src/robot/output/listeners.py:148-150 | guarded `log_message`: the message dict reaches every adapter; a nested call is a no-op |
| ListenerRegistry.Listeners.Message | src/robot/output/listeners.py:152-154 | guarded `message`: the message dict reaches every adapter |
| ListenerRegistry.Listeners.OutputFile | src/robot/output/listeners.py:160-163 | guarded `output_file`: `<type>_file(path)` reaches every adapter, for the modelled file types |
| ListenerRegistry.Listeners.Close | src/robot/output/listeners.py:165-167 | guarded `close`: `close()` reaches every adapter |
| Scenarios.InstanceLoads | src/robot/output/listeners.py:213-215 | a listener object with version 2 is taken into use under its type name |
| Scenarios.Register | src/robot/output/listeners.py:55-62 | registering version-2 listener objects keeps all of them, in order, and logs nothing; the registry is truthy exactly when some listener was given |
| Scenarios.LogFromListener | src/robot/output/listeners.py:27-44 | a listener that logs from `close` is called once: the message it logs is dropped by the guard, and nothing is logged |
| Scenarios.StuckGuard | src/robot/output/listeners.py:33-38 | after `start_suite` raises on a suite without a name, a later `close` returns without reaching any listener |
| Scenarios.StartSuiteMetadata | src/robot/output/listeners.py:76 | the `start_suite` arguments hold the suite's metadata entries as they are when the payload is built |
| Scenarios.MetadataSnapshot | src/robot/output/listeners.py:192-194 | changing the suite's metadata after `start_suite` leaves what the listener received unchanged (the delivered entries are those at build time; see the note on copies under Left out) |
| Scenarios.FirstOfTwoFails | src/robot/output/listeners.py:236-243 | with two adapters of which only the first raises, both are invoked in order, and one error and one info entry are logged |
| Scenarios.FirstOfTwoRaises | src/robot/output/listeners.py:165-167 | the same through `Listeners.close`: the second listener is still called after the first raises |

## Left out

- Importing by name: `Importer`, `split_args_from_name_or_path` and `os.path.normpath` are not modelled. A configuration given by name carries its split name and the result of the import, a listener or an import error message. `type_name` is given as a string with an object spec.
- `AbstractLoggerProxy` (in `loggerhelper.py`) is not part of this model. This includes how it finds a listener's methods, including the camelCase variants. A listener here simply defines some of the methods of the listener interface.
- `listeners is None` in `__init__`, which leaves `_listeners` unset, is not modelled. The constructor always takes a sequence.
- `get_error_details` is not modelled: a raising listener method supplies its error message and details directly.
- Log entries keep the `%s` template and its arguments rather than the formatted text. `ListenerProxies.ErrorMessage` renders a non-string unsupported version with `PyValues.Show`, which prints lists and dicts as placeholders.
- PyText.Title: ASCII only. Python's `str.title()` also cases non-ASCII letters.
- ListenerProxies.IntOf: `int()` of a string accepts ASCII whitespace, an optional sign and ASCII digits. Underscores and non-ASCII digits are not accepted. `int()` of a float is not modelled, because no float values are modelled.
- Payloads.NamedCall: `suite.name`, `test.name` and `kw.name`, and likewise `stat_message`, `test_count`, a truthy `source` or `template`, and a message's `timestamp`, `message` and `level` (`Payloads.MessageDict`), are passed on as values without copying in the code. The model hands the listener a snapshot of them, so aliasing of these values is not captured.
- Payloads.ChildNames: a suite's `tests` and `suites` are modelled as the list of the children's names, not as the child objects whose `name` the code reads.
- ListenerRegistry.Listeners.Imported: the attributes dict passed with an import is given as listener-side data, because the code passes it on without copying.
- ListenerRegistry.Listeners.NotifyKeyword: the code re-derives the keyword type and re-builds each event's payload once per adapter. The model builds them once, before the loop, from the state the event arrives in. Nothing a listener call does in the model can change what they read. For keywords, `Payloads.KeywordStepRepeats` proves that re-deriving from the slot the previous derivation left gives the same type and slot.
- ListenerRegistry.Listeners.StartSuite (and the other event methods): the payload is built before the guard flag is set rather than inside the loop. An exception while building it is still raised only when there is at least one adapter, as in the code.
- Payloads.KeywordTypeOf: it follows the code, where every keyword type other than `kw` (a for loop, for example) is given a `Test ...`/`Suite ...` label and fills the pending slot. The code's own comment (src/robot/output/listeners.py:130-132) speaks only of setup and teardown keywords.
- PyValues.TakeCopy: `dict(value)` and `list(value)` are shallow copies, so a mutable container nested inside a copied one stays shared with the run. The elements of `LiveList` and `LiveDict` are immutable `Data`, so the model has no nested live containers and does not capture that sharing. For the same reason a payload can never alias the run's containers in the model. `Scenarios.MetadataSnapshot` therefore shows that the delivered entries are those present when the payload was built (`Scenarios.StartSuiteMetadata`); it would not detect a missing copy.
- ListenerRegistry.Listeners.Imported, ListenerRegistry.Listeners.OutputFile: only the known import types (library, resource, variables) and file types (output, report, log, debug, xunit) are modelled, as the enums `ImportType` and `FileType`. In the code, the `getattr` for `<type>_import` or `<type>_file` runs outside `call_method`. A type string that names no listener method therefore raises `AttributeError` out of the guarded method and leaves the guard set. That path is not modelled.
- ListenerProxies.Listener: each listener method has one fixed reaction for the whole run, whatever its arguments and however often it is called. A listener that logs different messages, or fails only on a later call, cannot be expressed.
- Concurrency: the layer is single-threaded and the model is sequential.

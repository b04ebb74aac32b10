# method_call_trace agent: a Dafny model

This project models the bookkeeping and hand-off core of the `method_call_trace` JVMTI agent.
The agent keeps a table of the interesting classes the JVM loads, with the methods the bytecode
rewriter reports for each. When an injected call reports a method entry or exit by
(class number, method number), the agent checks both numbers against that table and asks the
name filter. If the filter accepts, it formats one text line and pushes it onto the network
server's queue. A worker thread sends a greeting to the one accepted client and then drains
the queue onto the socket in FIFO order. Two session flags decide what the callbacks do:
"VM started" and "VM dead".

Each part of the source has its own module:

- `common.dfy` (`Common`): `Option`, and `Outcome` for how a callback ends. `fatal_error`
  becomes `Fatal(message)`, `exit(0)` becomes `Exit(0)`, and an access through a null pointer
  becomes `NullDereference`.
- `agent_registry.dfy` (`AgentRegistry`): `MethodInfo` and `ClassInfo` from `JVMAgent.h`, the
  registry invariant (`m_mcount` equals the length of `m_methods`), the effect of the rewriter's
  method callback on one class, and the (class, method) lookup, both as written and corrected.
- `trace_lines.dfy` (`TraceLines`): the `"enter: C:m\r\n"` / `"exit: C:m\r\n"` lines. It also has
  a reader for them (`ParseTraceLine`), which acts as the format's inverse.
- `agent_options.dfy` (`AgentOptions`): the token loop of the C++ `parse_options`.
- `jvm_agent.dfy` (`JVMAgent`): the class `Agent`, with fields `classes`, `vmStarted`,
  `vmDead`, `filter` (`m_include`) and `server`. It covers the class-load hook, the method
  callback, method entry/exit, the session callbacks, the thread callbacks and the option loop.
  Each section the source runs under `lock()`/`unlock()` is one method.
- `network_server.dfy` (`NetworkServer`): the class `Server`, with the queue, the active flag,
  the worker and the two sockets. The bytes handed to `send` are kept in a ghost `sent`, and
  the sockets shut down and closed in a ghost `closed`.
- `legacy_options.dfy` (`LegacyOptions`): the older C agent's `parse_agent_options` and
  `Agent_OnLoad` from `main.c`.

The external collaborators become parameters:

- The name filter `interested(class, method, include, nullptr)` is an uninterpreted function `Filter`.
- The rewriter `java_crw_demo` is a function `Rewriter`. It maps the request the agent makes
  (class number, name, bytes, `system_class`) to the method table it reports through
  `mnum_callbacks` and the new image with its length.
- `java_crw_demo_classname` is a function from class bytes to an optional name.
- The tokenizer `get_token` is modelled by giving the parsers the token sequence it would
  produce. A null options string is `None`.
- The host's thread name is an optional byte string: the modified-UTF-8 bytes JVMTI returns,
  so its length is what `strlen` counts.
- The result of `accept` is a `Socket`: a handle, or `InvalidSocket`.

Three behaviours of the code are worth noting:

- The greeting the worker sends is `"Hello Client , I am JVM TI\n"` (NetworkServer.cpp:56).
- The C++ parser keeps only the last `include` item, because each item overwrites `m_include`.
  The C parser of `main.c` joins all of them with ','.
- Nothing is drained when `accept` fails: `start` then creates no worker.

## Model

| member | source | states |
|---|---|---|
| `TraceLines.TraceLine` | method_call_trace/JVMAgent.cpp:602 | the line is exactly the direction's prefix, then the class name, then ':', then the method name, then "\r\n" |
| `TraceLines.TraceLineRoundTrip` | method_call_trace/JVMAgent.cpp:602 | a trace line reads back as its direction, class and method whenever the class name has no ':' |
| `TraceLines.EntryAndExitLinesDiffer` | method_call_trace/JVMAgent.cpp:634 | an exit line never equals an entry line |
| `AgentRegistry.NewClass` | method_call_trace/JVMAgent.cpp:446-452 | a newly appended class has no methods, and its count agrees with that |
| `AgentRegistry.Resized` | method_call_trace/JVMAgent.cpp:533 | `resize(n)` gives length n, keeps the first entries, and pads with value-initialised methods |
| `AgentRegistry.WithMethods` | method_call_trace/JVMAgent.cpp:530-540 | after the callback the class keeps its name, has `m_calls` 0 and `m_mcount` = mcount, and method i has names[i] and sigs[i] |
| `AgentRegistry.WithMethodsKeepsCounters` | method_call_trace/JVMAgent.cpp:533-540 | counters of methods that already existed survive a second report; new methods start at 0 |
| `AgentRegistry.LookupAsWritten` | method_call_trace/JVMAgent.cpp:583-594 | the code's guards: the class is rejected exactly when cnum is not in [0, size), the method exactly when mnum >= its count, and a negative mnum reads outside the table |
| `AgentRegistry.NegativeMethodNumberPassesGuard` | method_call_trace/JVMAgent.cpp:589-594 | as written, mnum = -1 passes the method guard of any registered class and indexes outside `m_methods` |
| `AgentRegistry.Lookup` | method_call_trace/JVMAgent.cpp:583-594 | the class is out of range exactly when cnum is not in [0, size); the lookup succeeds exactly when both numbers index the tables, and then it yields those names |
| `AgentRegistry.LookupAgreesWithCode` | method_call_trace/JVMAgent.cpp:583-592 | for any mnum >= 0 the corrected lookup is the one the code performs |
| `AgentOptions.ParsedOptionTokens` | method_call_trace/JVMAgent.cpp:77-113 | the loop never exits with a code other than 0, and the filter it leaves is the old one or an item that directly follows an `include` token |
| `AgentOptions.ParsedOptions` | method_call_trace/JVMAgent.cpp:68-71 | null options end normally and leave the filter unchanged |
| `AgentOptions.ParsedOptionTokensAppend` | method_call_trace/JVMAgent.cpp:77-113 | a prefix that parses normally hands its filter on to the rest of the tokens |
| `AgentOptions.LastIncludeWins` | method_call_trace/JVMAgent.cpp:94-104 | `include=x1,...,include=xn` parses normally and leaves xn as the filter, or leaves the filter unchanged when there are none |
| `AgentOptions.HelpExits` | method_call_trace/JVMAgent.cpp:79-92 | once reached, `help` ends parsing with exit code 0, whatever follows |
| `AgentOptions.UnknownOptionIsFatal` | method_call_trace/JVMAgent.cpp:105-109 | a reached non-empty token other than help/include is fatal with "Unknown option" and the token |
| `AgentOptions.IncludeWithoutItemIsFatal` | method_call_trace/JVMAgent.cpp:97-103 | a trailing `include` with no item is fatal with the include error |
| `AgentOptions.EmptyTokenSkipped` | method_call_trace/JVMAgent.cpp:105-112 | an empty token changes neither the outcome nor the filter |
| `JVMAgent.Registered` | method_call_trace/JVMAgent.cpp:446-478 | a registered class has the loaded name and `m_calls` 0; its methods are exactly the ones reported through the callback, in order, or none |
| `JVMAgent.ReturnedImage` | method_call_trace/JVMAgent.cpp:483-493 | the hook reports `new_length` and a copy of exactly `new_length` image bytes when the rewriter returned a positive length, and otherwise 0 and null |
| `JVMAgent.Captured` | method_call_trace/JVMAgent.cpp:581-603 | when dead: no-op. Class out of range: fatal. Method out of range: fatal. An in-range pair on a live session ends normally, whether or not the filter accepts it. A line is enqueued exactly when the pair resolves and the filter accepts it, and nothing is enqueued on a fatal path |
| `JVMAgent.CapturedLineReadsBack` | method_call_trace/JVMAgent.cpp:596-602 | an enqueued line reads back as the direction and the looked-up class and method names |
| `JVMAgent.ThreadName` | method_call_trace/JVMAgent.cpp:553-569 | the result fits the buffer; it is "Unknown" or the host's name; it is the host's name whenever that is non-null and shorter than maxlen bytes |
| `JVMAgent.Agent.constructor` | method_call_trace/JVMAgent.cpp:10-18 | no classes, not started, not dead, empty filter, a fresh server in its initial state |
| `JVMAgent.Agent.InitJvmti` | method_call_trace/JVMAgent.cpp:28-38 | parses the options as `ParsedOptions` does; only if parsing ended normally is the server started, and then its active flag and worker are set exactly when they already were or accept succeeded; otherwise the server is left untouched |
| `JVMAgent.Agent.FinitJvmti` | method_call_trace/JVMAgent.cpp:40-44 | stops the server: it ends inactive, and the sockets are closed exactly when it was active |
| `JVMAgent.Agent.ParseOptions` | method_call_trace/JVMAgent.cpp:58-114 | the token loop ends with the outcome and filter of `ParsedOptions` |
| `JVMAgent.Agent.ProcessVMStart` | method_call_trace/JVMAgent.cpp:262-266 | sets the started flag and changes nothing else |
| `JVMAgent.Agent.ProcessVMDeath` | method_call_trace/JVMAgent.cpp:339-368 | sets the dead flag and changes nothing else |
| `JVMAgent.Agent.ProcessThreadStart` | method_call_trace/JVMAgent.cpp:370-384 | produces a thread name exactly when not dead, using the fallback rule, and changes no state |
| `JVMAgent.Agent.ProcessThreadEnd` | method_call_trace/JVMAgent.cpp:386-400 | produces a thread name exactly when not dead, using the fallback rule, and changes no state |
| `JVMAgent.Agent.MnumCallbacks` | method_call_trace/JVMAgent.cpp:514-541 | cnum >= size: fatal, registry unchanged. mcount = 0: registry unchanged. Otherwise class cnum becomes `WithMethods` of itself and every other class is unchanged |
| `JVMAgent.Agent.ProcessClassFileLoadHook` | method_call_trace/JVMAgent.cpp:402-506 | when dead: outputs untouched, registry unchanged. No name anywhere: fatal. Filter rejects: outputs 0/null, registry unchanged. Filter accepts: exactly one entry appended at index old size, rewritten with that index and with `system_class` exactly when not started, and the image reported as `ReturnedImage` |
| `JVMAgent.Agent.Trace` | method_call_trace/JVMAgent.cpp:576-607 | the shared entry/exit body has outcome and queue growth as `Captured` describes |
| `JVMAgent.Agent.ProcessMethodEntry` | method_call_trace/JVMAgent.cpp:576-607 | outcome as `Captured`; the queue grows by exactly the "enter: " line, or not at all |
| `JVMAgent.Agent.ProcessMethodExit` | method_call_trace/JVMAgent.cpp:609-639 | outcome as `Captured`; the queue grows by exactly the "exit: " line, or not at all |
| `JVMAgent.AgentWithFoo` | method_call_trace/JVMAgent.cpp:432-452 | after options `include=<pattern>` the filter holds the pattern, and loading "Foo" registers it at index 0 exactly when the filter accepts it with that pattern |
| `JVMAgent.FooScenario` | method_call_trace/JVMAgent.cpp:596-634 | with Foo(bar, baz) registered and accepted, entry then exit of (0, 0) queue exactly "enter: Foo:bar\r\n", "exit: Foo:bar\r\n" |
| `JVMAgent.OtherScenario` | method_call_trace/JVMAgent.cpp:429-432 | a class the filter rejects is not registered, the outputs are 0/null and nothing is queued |
| `JVMAgent.OutOfRangeScenario` | method_call_trace/JVMAgent.cpp:583-586 | class number 5 on a one-class registry is fatal and queues nothing; a later valid call still queues its line |
| `NetworkServer.Server.constructor` | method_call_trace/NetworkServer.cpp:9-15 | no worker, inactive, both sockets handle 0 (not `INVALID_SOCKET`), empty queue |
| `NetworkServer.Server.InitClientConnection` | method_call_trace/NetworkServer.cpp:81-131 | stores the listening handle and the accepted socket; succeeds exactly when accept returned a handle |
| `NetworkServer.Server.Start` | method_call_trace/NetworkServer.cpp:22-31 | becomes active and gains a worker only when accept succeeded; on failure the flag and the worker stay as they were |
| `NetworkServer.Server.FinitClientConnection` | method_call_trace/NetworkServer.cpp:133-150 | both sockets end invalid; exactly those that were not already invalid are closed, listening socket first |
| `NetworkServer.Server.Stop` | method_call_trace/NetworkServer.cpp:33-43 | inactive: no-op. Active: clears the flag and closes the valid sockets. It is always inactive afterwards |
| `NetworkServer.Server.EnqueueForSending` | method_call_trace/NetworkServer.cpp:45-50 | appends the message at the back and changes nothing else |
| `NetworkServer.Server.DrainPass` | method_call_trace/NetworkServer.cpp:61-68 | sends the queued messages in FIFO order and leaves the queue empty |
| `NetworkServer.Server.WorkerBody` | method_call_trace/NetworkServer.cpp:52-71 | the greeting is always sent first, even when no drain pass follows; then every message ever queued is sent in enqueue order, and after any pass the queue is empty |
| `NetworkServer.Closable` | method_call_trace/NetworkServer.cpp:135-147 | a socket is shut down and closed exactly when it is not `INVALID_SOCKET` |
| `NetworkServer.ConcatAppend` | method_call_trace/NetworkServer.cpp:59-69 | batches drained one pass after another deliver their concatenation |
| `NetworkServer.StopTwice` | method_call_trace/NetworkServer.cpp:33-43 | two `stop`s have the effect of one: only the flag, the sockets and the closed list may change; an active server ends with both sockets invalid, and an inactive one is left as it was |
| `LegacyOptions.BufferBeforeItem` | method_call_trace/main.c:90-101 | a fresh list starts empty; an existing list is kept and followed by a ',' before the next item |
| `LegacyOptions.ParsedAgentTokens` | method_call_trace/main.c:68-123 | a null dereference only happens on null data; initialised data stays initialised, and an existing list is only ever extended, never overwritten |
| `LegacyOptions.ParsedAgentOptions` | method_call_trace/main.c:59-62 | null options end normally and leave the include list unset |
| `LegacyOptions.ParsedAgentTokensAppend` | method_call_trace/main.c:68-123 | a prefix that parses normally hands its data, with the include list built so far, on to the rest of the tokens |
| `LegacyOptions.AgentEmptyTokenSkipped` | method_call_trace/main.c:115-122 | an empty token changes neither the outcome nor the include list |
| `LegacyOptions.IncludeItemsAppended` | method_call_trace/main.c:95-108 | each item is appended to an existing list after a ',' |
| `LegacyOptions.IncludeItemsJoined` | method_call_trace/main.c:84-108 | on initialised data, `include=x1,...,include=xn` leaves the list x1,...,xn joined by ',' in option order, or NULL when n = 0 |
| `LegacyOptions.SameOutcomeAsAgentParser` | method_call_trace/main.c:68-123 | on the same tokens and initialised data, it ends exactly as the C++ parser does (help exits, a trailing include or an unknown token is fatal, empty tokens are skipped) |
| `LegacyOptions.IncludeBeforeInitFaults` | method_call_trace/main.c:90 | with `gdata` null, the first `include` reached after only empty tokens dereferences null |
| `LegacyOptions.GlobalAgentData.constructor` | method_call_trace/main.c:128-129 | zeroed data has a NULL include list |
| `LegacyOptions.LegacyAgent.constructor` | method_call_trace/main.c:25 | `gdata` starts null |
| `LegacyOptions.LegacyAgent.InitGlobalData` | method_call_trace/main.c:126-131 | `gdata` points to fresh zeroed data |
| `LegacyOptions.LegacyAgent.ParseAgentOptions` | method_call_trace/main.c:49-124 | the token loop ends with the outcome and data of `ParsedAgentOptions` |
| `LegacyOptions.LegacyAgent.AgentOnLoad` | method_call_trace/main.c:226-236 | as written: the outcome is that of parsing against null data, and an include list never survives |
| `LegacyOptions.LegacyAgent.AgentOnLoadFixed` | method_call_trace/main.c:226-236 | with initialisation first: outcome and include list are those of parsing against zeroed data |

## Findings

| source | as written | input that shows it | evidently intended | confidence | as-written member | corrected member |
|---|---|---|---|---|---|---|
| method_call_trace/JVMAgent.cpp:589 | `mnum >= m_mcount` compares two signed ints, so a negative method number passes the guard and `m_methods[mnum]` reads out of bounds (the same at line 622) | one registered class, `process_method_entry(0, -1)` | a method number outside [0, m_mcount) is fatal, as a class number outside the table is | medium, not executed (the rewriter is not expected to pass negative numbers) | `AgentRegistry.NegativeMethodNumberPassesGuard` | `AgentRegistry.Lookup` |
| method_call_trace/main.c:228-229 | `Agent_OnLoad` parses options before `init_global_data`, so `gdata` is null when an include is stored, and the zeroing would wipe the list in any case | options `include=Foo` | initialise the data first, then accumulate the items | high, not executed | `LegacyOptions.LegacyAgent.AgentOnLoad` | `LegacyOptions.LegacyAgent.AgentOnLoadFixed` |

`Lookup` rejects negative method numbers, and `Captured`, `Trace`, `ProcessMethodEntry` and
`ProcessMethodExit` use it. `LookupAsWritten` is the code's guard, and `LookupAgreesWithCode`
shows the two differ only for negative method numbers. For `main.c`, `IncludeBeforeInitFaults`
exhibits the fault and `IncludeItemsJoined` proves what the corrected order yields.

## Left out

- JVMTI and JNI plumbing is not modelled: `GetEnv`, capabilities, event notification modes,
  callback registration, raw monitors, `FindClass` / `RegisterNatives` / `SetStaticIntField`
  in VM init and VM death, `allocate` / `deallocate`, `strdup` / `free`. So are the fatal errors
  these host calls can raise. Only the flag and registry effects of the callbacks are kept.
- `process_cbVMInit` is not modelled: all its work is JNI registration, event enabling and logging.
- `init_jvmti` is modelled only in its parse-then-start order (`Agent.InitJvmti`). The host
  steps it runs in between are not modelled: `do_init_jvmti`, `init_lock`, `init_capabilities`,
  `set_event_notifications` and `set_event_callbacks`. `start_network_server` and
  `stop_network_server` are not separate members: they only forward to `Server.Start` and
  `Server.Stop`. `main.cpp` is not modelled: it only forwards to `init_jvmti` and `finit_jvmti`.
- Winsock is replaced by abstract values. `WSAStartup`, `socket` and `bind` are assumed to
  succeed, so their fatal errors are not modelled. `listen` and `WSACleanup` have no effect in
  the model. `send` results are ignored, as in the source. A send to the client is recorded in
  the ghost `sent` whatever the socket state.
- Threads and locks are not modelled. Each locked region is one atomic method; `join` has no
  effect on the state. The busy-waiting inner loop is one pass per element of `arrivals`.
- NetworkServer.Server.WorkerBody: the stopping thread clears the active flag, and that is
  outside the method. So the method ends with the flag still set and does not show the loop exit.
- JVMAgent.ThreadName: a failing `GetThreadInfo` is fatal in the source (`check_jvmti_error`).
  The model assumes the call succeeds.
- The filter `interested`, the tokenizer `get_token`, the rewriter `java_crw_demo` and
  `java_crw_demo_classname` are uninterpreted. Nothing is assumed about their matching,
  tokenising or rewriting rules. In particular, the buffer limits `MAX_TOKEN_LENGTH` (16) and
  `MAX_METHOD_NAME_LENGTH` (1024) that the agent passes to `get_token` have no modelled effect.
- JVMAgent.Agent.MnumCallbacks requires `0 <= mcount` and at least `mcount` names and
  signatures. This is the rewriter's obligation: the C code reads `names[i]` and `sigs[i]`
  for every `i < mcount`, and a negative count would make `resize` fail.
- Fixed-width integers are not modelled. Class numbers, counts and lengths are unbounded
  integers, so a registry past 2^31 classes wrapping the `jint` class number is not captured.
- Out-of-memory failures (`strdup`, `calloc`, `realloc`, vector growth) are not modelled.
- The C string buffers `m_include` and `gdata->include` are modelled by their contents up to
  the terminator, not as byte arrays.
- `stdout_message` / `printf` logging and the help text are not modelled.
- The fields of `GlobalAgentData` other than `include` are not modelled, and neither is
  `main.c`'s `init_jvmti` and event setup: they only hold or use host handles.
- `Test.java` and `TestThread.java` are not modelled: they are the traced Java workload.

# Azure container-group provisioning and the backend registry, in Dafny

This project models two small sequential pieces of a cloud-backend CLI.

1. **Azure container instances** (`azure/aci.go`).
   - Creating a container group starts with an existence check. Then comes the create
     request, a wait, and a fetch of the realized group. Progress events are emitted along
     the way.
   - When the realized group has more than one container, a cross-registration step
     follows. It opens a `/bin/sh` exec session on the first container and types a script
     into it. The script adds one `echo 127.0.0.1 <name> >> /etc/hosts` line per container,
     then `exit`.
   - The script reaches the session through `commandSender`, an `io.Reader` over the
     newline-joined script. The relay's upstream loop reads it one byte at a time and sends
     one message per byte.
2. **The backend registry** (`backend/backend.go`): a table of
   `(name, backendType, init, getCloudService)` records. `Register` refuses an empty name,
   an empty type or a duplicate type. `Get` and `GetCloudService` scan the table by type.

Modules:

- `Optional` (`optional.dfy`): `Option`. `None` stands for Go's `nil` error.
- `AciReader` (`aci_reader.dfy`): a Go string is a `seq<byte>`. `CommandSender` is a class
  whose `commands` field `Read` shrinks in place, copying into an `array<byte>`. `ReadAll`
  is a generic client that reads until EOF. `Upstream` is the relay's one-byte-per-message
  loop.
- `AciScript` (`aci_script.dfy`): `Join` is `strings.Join`. `Lines` is
  `strings.Split(s, "\n")`. Also here: the hosts script (`HostScript`, built by the loop
  `HostCommands`), `HostsEntry` (which reads a script line back) and `ExecCommands`.
- `AciProvision` (`aci_provision.dfy`):
  - Every remote call is an abstract outcome in a `Remote` record: CreateOrUpdate,
    WaitForCompletionRef, Result, opening the exec session, and running the script.
  - A run returns the progress events, the remote calls issued in order, and the error.
  - `CreateOrUpdate` appends events step by step. It is proved equal to `Provision`, a
    declarative statement in which each failing step cuts the successful event trace at a
    fixed point.
  - `Create` adds the existence check (`ExistenceCheck`).
- `Backend` (`backend_registry.dfy`): the package-level `backends.r` slice is the
  `backends` field of a `Registry` object. `Valid()` requires unique types and non-empty
  names and types. `logrus.Fatal` becomes an error result that leaves the registry
  unchanged. `init` and `getCloudService` are opaque function values; their result types
  are type parameters that stand for the (value, error) pair each returns.

Behaviour of the code worth noting:

- The cross-registration script lists every container of the realized group, the first
  one included (azure/aci.go:104-105). `TwoContainerScenario` shows the script for a group
  with `web` and `db`.
- Container Done events are emitted before cross-registration (azure/aci.go:94-100). So a
  cross-registration failure returns its error after every Done event
  (azure/aci.go:102-124, `ConfigurationFailure`).
- A cross-registration failure returns the raw remote error. There is no separate
  "configuration failed" error kind. Only the run's calls show that the group was created.
- The Done events loop over the containers of the group *definition*
  (azure/aci.go:94). The script and the exec target use the *realized* group
  (azure/aci.go:102-111). The model keeps both.
- Nothing checks that the group has a name or at least one container. The model accepts
  an empty container list.
- When the existence query fails with an error that is not an `autorest.DetailedError`,
  the code returns the zero `DetailedError` in its place (azure/aci.go:36-41). See
  "## Findings".

## Model

| member | source | states |
|---|---|---|
| `AciReader.CommandSender.Read` | azure/aci.go:179-196 | With nothing pending: returns (0, EOF) and changes neither the reader nor the buffer. Otherwise: returns n = min(len(p), len(commands)), p[0..n) holds the first n pending bytes, the rest of p is untouched, and the pending string loses exactly those n bytes. |
| `AciReader.CommandSender.ReadAll` | azure/aci.go:179-196 | Reading with any buffer of at least one byte until EOF terminates. Every chunk holds between 1 and len(p) bytes, the chunks concatenate to the original string, and nothing is left pending. |
| `AciReader.CommandSender.Upstream` | azure/aci.go:234-257 | The upstream loop (one-byte buffer, a message for each byte read, stop at EOF) sends exactly as many one-byte messages as there were pending bytes. They concatenate to the pending string. |
| `AciScript.LinesOfJoin` | azure/aci.go:201 | Splitting the newline-joined commands at newlines gives the command list back, provided no command contains a newline. |
| `AciScript.JoinEndsWithLast` | azure/aci.go:201 | The joined string ends with the last command, so no newline follows it. |
| `AciScript.HostsEntryOfEchoLine` | azure/aci.go:105 | Each hosts line names exactly its container: reading the line back gives that container's name. |
| `AciScript.HostsEntryOfExit` | azure/aci.go:107 | The closing `exit` line is not a hosts line. |
| `AciScript.HostCommands` | azure/aci.go:103-107 | The loop yields N + 1 commands. Line i registers container i, in container order. The last line is `exit`. |
| `AciScript.ScriptLines` | azure/aci.go:102-107 | Once joined and split at newlines, the script still has N + 1 lines: one hosts entry per container in order, then `exit`. This needs container names without newlines. |
| `AciScript.ExecCommands` | azure/aci.go:198-202 | A new reader whose pending string is exactly the commands joined by "\n". |
| `AciScript.InjectedMessages` | azure/aci.go:198-204 | What the relay's upstream loop sends for an execCommands reader: one byte per message, in order. The messages concatenate to the joined commands and end with the last command, with no trailing newline. |
| `AciProvision.ExistenceCheckAsWritten` | azure/aci.go:33-45 | The check as written. Creation goes ahead if and only if Get failed with a DetailedError of status 404. An existing group gives an "already exists" error. Any other DetailedError is returned unchanged. Any error that is not a DetailedError is replaced by the zero DetailedError. |
| `AciProvision.ExistenceCheckLosesError` | azure/aci.go:36-41 | A Get failure that is not a DetailedError comes back as the zero DetailedError, not as the original error. |
| `AciProvision.ExistenceCheck` | azure/aci.go:33-45 | The check as intended, used by `Create`. Creation goes ahead if and only if Get failed with a DetailedError of status 404. An existing group gives an "already exists" error. Every other error is returned unchanged. |
| `AciProvision.ExistenceChecksAgree` | azure/aci.go:33-45 | The two checks give the same answer on every outcome except a Get failure that is neither a DetailedError nor the zero DetailedError. |
| `AciProvision.CreateOrUpdate` | azure/aci.go:50-127 | The step-by-step run, with its events, calls and error, equals `Provision` for every combination of remote outcomes. |
| `AciProvision.Create` | azure/aci.go:27-48 | Uses the intended `ExistenceCheck`. A rejected existence check returns its error after the Get call alone. An existing group emits no event and issues no CreateOrUpdate. Otherwise the run is Get followed by createOrUpdate's run. |
| `AciProvision.ProvisionSucceedsIff` | azure/aci.go:62-126 | A run succeeds if and only if create, wait and result succeed and, for a realized group of more than one container, opening the session and running the script both succeed. |
| `AciProvision.SuccessTrace` | azure/aci.go:56-100 | On success the events are: group Working, group Done, then one Working per container in order, then one Done per container in order. That is 2 + 2N events, with N + 1 of each status. |
| `AciProvision.SuccessEventsCount` | azure/aci.go:56-100 | The successful trace has N + 1 Working events and N + 1 Done events. |
| `AciProvision.EarlyFailureNoContainerDone` | azure/aci.go:62-93 | When create, wait or result fails, the run fails. Its only Done event is the group's "Created" one, and no container is reported Done. |
| `AciProvision.ConfigurationFailure` | azure/aci.go:94-124 | When cross-registration fails, the error comes after create, wait and fetch succeeded and after every container reported Done. The error is the failing step's remote error, returned as it is. |
| `AciProvision.CrossRegistration` | azure/aci.go:102-111 | After a successful fetch, exactly one exec session is opened if the realized group has more than one container, and none otherwise. The session is `/bin/sh` on the group's first container. It is sent the hosts script of all realized containers. |
| `AciProvision.TwoContainerScenario` | azure/aci.go:102-124 | For group g1 with containers web and db, when every step succeeds: one creation request, a /bin/sh session on web, and the script [echo web, echo db, exit]. |
| `Backend.Find` | backend/backend.go:66-71 | The scan finds a record if and only if some record has the type. The record found has that type, and no earlier record has it. |
| `Backend.FindUnique` | backend/backend.go:49-53 | With unique types, looking up the type of record k finds record k. |
| `Backend.FindAfterAppend` | backend/backend.go:55-60 | Appending a record with a new type makes that type find the new record and leaves every other lookup unchanged. |
| `Backend.Registry.constructor` | backend/backend.go:31-33 | The registry starts empty and valid. |
| `Backend.Registry.Register` | backend/backend.go:42-61 | The error is chosen in this order: empty name, then empty type, then a type already present. Every error leaves the table unchanged. Success appends exactly the given record at the end. Uniqueness of types is preserved. |
| `Backend.Registry.Get` | backend/backend.go:65-73 | "Not found", carrying the requested type, if and only if no record has the type. Otherwise the result of the matching record's `init` on the context. The registry is not modified. |
| `Backend.Registry.GetCloudService` | backend/backend.go:77-85 | "Not found", carrying the requested type, if and only if no record has the type. Otherwise the result of the matching record's `getCloudService`. The registry is not modified. |
| `Backend.LookupFindsRegistered` | backend/backend.go:65-84 | In a valid registry, each registered type resolves to that record's own `init` and `getCloudService`. |
| `Backend.RegisterThenFind` | backend/backend.go:49-72 | After a successful Register the table still has unique types. The new type resolves to the new record, and every other type resolves as before. |

## Findings

| source | as written | input that shows it | evidently intended | confidence | as-written member | corrected member |
|---|---|---|---|---|---|---|
| azure/aci.go:36-41 | `if err, ok := err.(autorest.DetailedError); ok { … } else { return err }`: the `err` in the `else` branch is the zero `DetailedError` that the failed type assertion declared, so Get's own error is dropped | Get fails with an error that is not an `autorest.DetailedError` (for example a transport error that the client did not wrap) | return Get's error unchanged | not executed; follows from Go's scoping of variables declared in an `if` statement's init | `AciProvision.ExistenceCheckAsWritten`, `AciProvision.ExistenceCheckLosesError` | `AciProvision.ExistenceCheck` |

## Left out

- The two goroutines, the channels and the websocket of `exec` (azure/aci.go:206-267). This covers the dial, the password frame, the downstream loop and the first-completion `select`, which are concurrency and network I/O. Only the upstream loop's sequential behaviour over the reader is modelled (`Upstream`).
- The Azure SDK calls (CreateOrUpdate, WaitForCompletionRef polling, Result, ExecuteCommand, Get, Delete, ListLogs). They are abstract outcomes in `Remote` and `GetOutcome`. The pass-throughs `getACIContainerGroup`, `deleteACIContainerGroup` and `getACIContainerLogs` add no logic of their own and are not modelled.
- Client setup and login (`getContainerGroupsClient`, `setupClient`, `getContainerClient`), including the "cannot get container group client" error paths. This is external configuration.
- `getTermSize` and the exec request's terminal size: terminal I/O.
- Rendering by the progress writer. Only the event sequence is modelled.
- Error message text. Errors are constructors that carry their data (the group name, the backend type). The wrapping done by `errors.Wrapf` and the `%q`/`%s` formatting are left out.
- The context argument and cancellation: no step of the model blocks.
- `logrus.Fatal` process termination and logging. These are modelled as an error result that leaves the registry unchanged.
- Go pointers (`*groupDefinition.Name` and so on) are plain values. A nil pointer, which would panic, is not modelled.
- Registry aliasing: the source stores pointers to records. Nothing updates a record after registration, so the model stores the records themselves.

# Docker Compose orchestration core: a Dafny model

This project models the service-orchestration core of the e2e-testing tool:

- the `DockerServiceManager` of `internal/compose/compose.go`, which brings
  compose topologies ("profiles" and standalone "services") up and down,
  attaches and removes services, runs commands inside them, and records the
  descriptor files and environment of every successful composition in a
  persisted state store;
- the `DockerService` value of `service.go`: a single image with exposed
  ports, a daemon flag and at most one running-container handle.

Layout:

| file | module | contents |
|---|---|---|
| `results.dfy` | `Results` | `Option` and `Result` |
| `state.dfy` | `State` | the state store: a class over `map<string, Record>` with `Recover`, `Update`, `Destroy` |
| `compose_model.dfy` | `ComposeModel` | value types, identity keys, argument vectors, the environment overlay, descriptor resolution, and one pure function per manager operation over a `World` (the records plus the driver call log) |
| `compose_lemmas.dfy` | `ComposeLemmas` | key injectivity, the fail-fast removal loop, persisted environments across operations |
| `compose.dfy` | `Compose` | the driver object, the resolution and merge loops, and the `DockerServiceManager` class whose methods are proved equal to the functions of `ComposeModel` |
| `service.dfy` | `Service` | `ExposedPort`, its specification string and a reader for it, the container runtime object, the `DockerService` class |

The collaborators the core cannot see are parameters. The descriptor
resolver `config.GetComposeFile` is a total function from
`(isProfile, name, explicit filenames)` to a path or an error. A resolved
path carries the base name of its parent directory, which is all the core
uses of `filepath.Base(filepath.Dir(...))`. The compose driver
(`tc.NewLocalDockerCompose(...).WithCommand(...).WithEnv(...).Invoke()`)
is an object that logs every invocation; the outcome of its n-th
invocation is given by an oracle function. The testcontainers runtime is
modelled the same way: it records start requests and terminations, and
oracles give their outcomes.

The persisted record written after a driver success is keyed by the
directory base name of the first resolved file plus `-profile` or
`-service`. `AddServicesToCompose`, `RemoveServicesFromCompose` and
`StopCompose` instead recover and destroy by the first *name* plus the
suffix. The two keys agree when a topology's descriptor lives in a
directory named after it. The model keeps both derivations as the code
has them. `StopCompose` therefore destroys the name-derived key after
`executeCompose` has already written the directory-derived key.
`ComposeLemmas.RunThenStop` states the conventional-layout case.

Where the documented design and the code differ, the model follows the code:

- A removal failure is returned as the plain driver error. The code has
  no partial-removal error that lists which services were removed.
- `DockerService.Run` does not terminate a previous container before it
  replaces the handle.
- `Destroy` keeps the handle after terminating it.
- `StopCompose` chooses the profile entries with `len(composeName) == 1`.
  That tests the length of the first *name*, not the number of names, and
  Go's `len` of a string counts UTF-8 bytes, so a one-character name
  outside ASCII does not qualify.
- The paths `StopCompose` resolves are used only for its error message.
  `executeCompose` resolves again with its own rule.

## Model

| member | source | states |
|---|---|---|
| `ComposeModel.Key` | internal/compose/compose.go:172-175 | the state key is the name followed by an 8-character kind suffix |
| `ComposeLemmas.KeyInjective` | internal/compose/compose.go:217-221 | two keys are equal exactly when both the names and the kinds are equal, so a profile and a service with the same name never share a record |
| `ComposeModel.Overlay` | internal/compose/compose.go:54-57 | the merged environment has the keys of both maps; caller values win on conflict; persisted keys absent from the caller's map are kept |
| `Compose.MergeEnvironment` | internal/compose/compose.go:55-57 | the key-by-key overwrite loop yields exactly `Overlay(persisted, env)` |
| `ComposeModel.AsProfile` | internal/compose/compose.go:195-198 | with the execute rule, entry i resolves as a profile iff i = 0 and the call is for a profile; with the stop rule (lines 160-163), iff the call is for a profile or i = 0 and the first name is one byte long in UTF-8 (a single ASCII character) |
| `ComposeLemmas.StopRuleCountsBytes` | internal/compose/compose.go:160 | the name `a` takes the profile path under the stop rule and the name `é` (two bytes in UTF-8) does not; only the first entry is considered |
| `ComposeModel.ResolvePrefix` | internal/compose/compose.go:193-205 | resolving the first n entries succeeds iff every entry resolves, and then yields each entry's path in order; otherwise the error carries the path and the reason the resolver returned for the first entry that fails |
| `ComposeLemmas.ResolveErrorPersists` | internal/compose/compose.go:200-203 | once an entry fails, every longer prefix fails with the same error (the loop returns at the first failure) |
| `Compose.ResolvePaths` | internal/compose/compose.go:193-205 | the fill-by-index loop with early return computes `ResolveAll` |
| `Compose.Driver.Invoke` | internal/compose/compose.go:207-211 | one driver invocation is appended to the call log with the files, the project name, the command and the environment; its outcome is the oracle's answer for that call number |
| `ComposeModel.Execute` | internal/compose/compose.go:192-232 | a resolution failure returns before any driver call or state change; otherwise there is exactly one driver call, with the first name as project; a failure returns the driver error with the paths and leaves the records unchanged; a success replaces only the record under the first path's directory base name plus the suffix, with (paths, env) |
| `Compose.DockerServiceManager.ExecuteCompose` | internal/compose/compose.go:192-232 | the new records and call log, and the returned error, are those of `Execute` on the old ones |
| `ComposeModel.AddServices` | internal/compose/compose.go:51-64 | exactly one `up -d` driver call, over `[profile] + composeNames` resolved as a profile, with the explicit filename passed to every entry, and with the environment recovered for `profile-profile` overlaid by the caller's; it succeeds exactly when that call succeeds, and a failure returns the driver's error with the paths and leaves the records unchanged; on success only the directory-derived profile key is replaced |
| `Compose.DockerServiceManager.AddServicesToCompose` | internal/compose/compose.go:40-65 | the effect and result are those of `AddServices` |
| `ComposeLemmas.AddServicesPersistsEnv` | internal/compose/compose.go:54-59 | with the conventional layout, after a successful add the profile's recovered environment is the merged one |
| `ComposeModel.ExecArgs` | internal/compose/compose.go:73-78 | the arguments are `exec -T`, then `-d` when detached, then the service name, then the commands unchanged |
| `Compose.BuildExecArgs` | internal/compose/compose.go:73-78 | the successive appends build exactly `ExecArgs` |
| `ComposeModel.ExecInService` | internal/compose/compose.go:68-92 | the command runs over `[profile, image]` resolved as a profile, with the caller's environment, in exactly one driver call; a driver failure is returned unchanged as that call's error and leaves the records unchanged; a success replaces only the profile's directory-derived record, with the paths and the caller's environment |
| `Compose.DockerServiceManager.ExecCommandInService` | internal/compose/compose.go:68-92 | the effect and result are those of `ExecInService` |
| `ComposeLemmas.RemoveEachStep` | internal/compose/compose.go:114-131 | one turn of the removal loop: one `rm -fvs <name>` call; a failure stops with that error, a success updates the profile's record and continues with the rest |
| `ComposeLemmas.RmCallsAt` | internal/compose/compose.go:115-118 | the removal calls list has one call per target, the j-th removing the j-th name, all with the same files and environment |
| `ComposeLemmas.RemoveEachSucceeds` | internal/compose/compose.go:114-133 | the removal returns nil iff every removal call succeeds, and then the calls are exactly one per name, in order |
| `ComposeLemmas.RemoveEachStopsAtFirstFailure` | internal/compose/compose.go:118-126 | if call k is the first to fail, that driver error is returned and the calls are exactly those for the first k+1 names: no later name is attempted |
| `ComposeLemmas.RemoveEachRecords` | internal/compose/compose.go:118 | the removal changes at most the profile's directory-derived record, to the merged environment, and does so exactly when the first removal call succeeds |
| `ComposeLemmas.RemoveEachResolutionFailure` | internal/compose/compose.go:114-118 | if the descriptors do not resolve, the first turn returns the resolution error with no driver call and no state change; with no names to remove, nil is returned |
| `ComposeModel.RemoveEach` | internal/compose/compose.go:114-131 | with no targets nothing happens; the call log only grows, by at most one call per target, and the j-th new call is `rm -fvs` of the j-th target over the resolved files, with the first name as project and the loop's environment |
| `ComposeModel.RemoveServices` | internal/compose/compose.go:95-134 | with no services nothing happens; a resolution failure is returned before any call; otherwise the j-th call removes the j-th service, with the profile as project and the environment recovered for `profile-profile` overlaid by the caller's, merged once for all calls |
| `Compose.DockerServiceManager.RemoveServicesFromCompose` | internal/compose/compose.go:95-134 | the effect and result are those of `RemoveServices`, the loop over the names with the environment merged once |
| `ComposeModel.RunCommand` | internal/compose/compose.go:137-139 | the caller's arguments and environment are passed through verbatim in one driver call, resolved and keyed as a profile; it succeeds exactly when that call does, a failure returns the driver's error with the paths and keeps the records |
| `Compose.DockerServiceManager.RunCommand` | internal/compose/compose.go:137-139 | the effect and result are those of `ComposeModel.RunCommand` |
| `ComposeModel.RunCompose` | internal/compose/compose.go:142-149 | one `up -d` driver call with the caller's environment unmerged and the caller's kind; it succeeds exactly when that call does, a failure returns the driver's error with the paths and keeps the records; a success replaces only the directory-derived key |
| `Compose.DockerServiceManager.RunCompose` | internal/compose/compose.go:142-149 | the effect and result are those of `ComposeModel.RunCompose` |
| `ComposeModel.StopCompose` | internal/compose/compose.go:152-190 | a stop-rule resolution failure returns before anything happens; a failure of `executeCompose`'s own resolution is wrapped with the stop-rule paths, with no call; otherwise `down --remove-orphans` runs once with the environment recovered under the first name's key, and the stop succeeds exactly when that call does; a failure wraps the driver's error with the stop-rule paths and leaves the records unchanged; a success leaves no record under that key |
| `Compose.DockerServiceManager.StopCompose` | internal/compose/compose.go:152-190 | the effect and result are those of `ComposeModel.StopCompose` |
| `ComposeLemmas.RunThenStop` | internal/compose/compose.go:172-182 | with the conventional layout, a stop after a successful bring-up runs `down` with the bring-up's environment, and a successful stop restores the records as they were before the bring-up except that the topology's key is gone |
| `State.RecoverAfterUpdate` | internal/compose/compose.go:222 | after an update, recover returns the environment just written, not a merge with the earlier one |
| `State.RecoverAfterDestroy` | internal/compose/compose.go:182 | after a destroy, recover returns the empty environment |
| `State.StateStore.Recover` | internal/compose/compose.go:54 | the stored environment for the key, or the empty map when there is no record |
| `State.StateStore.Update` | internal/compose/compose.go:222 | the key's record is replaced wholesale and every other record is kept |
| `State.StateStore.Destroy` | internal/compose/compose.go:182 | the key's record is removed; a missing key is no error |
| `Service.PortSpec` | service.go:44-46 | the string is the address, `:`, the host port, `:`, the container port, `/`, the protocol, each field at its position and nothing else |
| `Service.PortSpecRoundTrip` | service.go:44-46 | the specification string is read back field by field as address, host port, container port, protocol, provided the separators do not occur inside the fields |
| `Service.PortSpecs` | service.go:26-34 | one specification per port, same length, same order |
| `Service.DockerService.ExposePorts` | service.go:26-34 | the append loop returns `PortSpecs` of the exposed ports and changes nothing |
| `Service.MarkDaemon` | service.go:79-83 | only the daemon flag is set; ports, image and running handle are unchanged |
| `Service.MarkDaemonIdempotent` | service.go:79-83 | marking twice equals marking once |
| `Service.DockerService.AsDaemon` | service.go:79-83 | the fields change as `MarkDaemon` says and the same object is returned |
| `Service.ContainerRuntime.GenericContainer` | service.go:65-68 | one start request is recorded; its outcome is the oracle's answer |
| `Service.DockerService.Run` | service.go:58-76 | one started request with the image tag and `PortSpecs` of the ports; on failure the error is returned and the handle is unchanged; on success the handle is the new container, which is returned |
| `Service.ContainerRuntime.Terminate` | service.go:52 | one termination is recorded; its outcome is the oracle's answer |
| `Service.DockerService.Destroy` | service.go:49-55 | the running container is terminated and nil is returned whatever the termination answers |

## Left out

- Tracing spans (`apm.StartSpanOptions`), the `context.Context` parameters and all logging: observability only.
- The error message texts. Each `fmt.Errorf` site is a constructor of `ComposeError` that carries the values the site formats: `ResolveFailed` the path and the error the resolver returned (compose.go:167 and 202 print the path `GetComposeFile` gave back, not the name asked for), `DriverFailed` the resolved paths and the driver's error, `StopFailed` the stop-rule paths and the wrapped error.
- `config.Op.Workspace`: the model has one state store, so the workspace argument of the state calls is dropped.
- The descriptor resolver's filesystem search, the driver's real behaviour and testcontainers' behaviour. These are foreign code, modelled as oracles.
- The state package's on-disk encoding, its durability and its concurrency guarantees. The store is a map, and operations are sequential.
- `filepath.Base`/`filepath.Dir` string semantics: a resolved path carries its directory base name.
- `NewServiceManager` and the `ServiceManager`/`Service` interfaces are not modelled separately. The manager class's constructor takes the store, the driver and the resolver.
- Go's nil maps and slices: empty maps and sequences stand for them.
- Go's panic on an empty `composeNames` in `RunCommand`, `RunCompose`, `StopCompose` and `executeCompose` becomes a `requires |names| > 0`. `Destroy`'s panic on a nil `RunningService` becomes a `requires`.

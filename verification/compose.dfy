/**
 * The `compose` package's service manager as objects: the state store and
 * the compose driver are shared, mutable collaborators, and each operation
 * of `DockerServiceManager` is a method whose effect on them is the
 * corresponding function of `ComposeModel`.
 */
module Compose {
  import opened Results
  import opened State
  import opened ComposeModel
  import ComposeLemmas

  /**
   * The compose driver: every invocation is appended to `calls`, and the
   * outcome of the n-th invocation is given by `outcome`.
   */
  class Driver {
    var calls: seq<Invocation>
    const outcome: DriverOracle

    constructor (outcome: DriverOracle)
      ensures calls == [] && this.outcome == outcome
    {
      calls := [];
      this.outcome := outcome;
    }

    /** `tc.NewLocalDockerCompose(paths, project).WithCommand(command).WithEnv(env).Invoke()`. */
    method Invoke(paths: seq<ComposePath>, project: string, command: seq<string>, env: Env) returns (failure: Option<string>)
      modifies this
      ensures calls == old(calls) + [Invocation(paths, project, command, env)]
      ensures failure == outcome(|old(calls)|, Invocation(paths, project, command, env))
    {
      failure := outcome(|calls|, Invocation(paths, project, command, env));
      calls := calls + [Invocation(paths, project, command, env)];
    }
  }

  /**
   * The resolution loop: fills one slot per name, in order, and returns at
   * the first name the resolver cannot find.
   */
  method ResolvePaths(resolve: Resolver, rule: ResolveRule, names: seq<string>, filename: seq<string>)
    returns (r: Result<seq<ComposePath>, ComposeError>)
    ensures r == ResolveAll(resolve, rule, names, filename)
  {
    var paths := new ComposePath[|names|];
    for i := 0 to |names|
      invariant ResolvePrefix(resolve, rule, names, filename, i) == Ok(paths[..i])
    {
      var found := resolve(AsProfile(rule, i, names[i]), names[i], filename);
      if found.Err? {
        ComposeLemmas.ResolveErrorPersists(resolve, rule, names, filename, i + 1, |names|);
        return Err(ResolveFailed(found.error.path, found.error.reason));
      }
      paths[i] := found.value;
      assert paths[..i + 1] == paths[..i] + [found.value];
    }
    assert paths[..] == paths[..|names|];
    return Ok(paths[..]);
  }

  /** Overlays the caller's environment on the persisted one, key by key. */
  method MergeEnvironment(persisted: Env, env: Env) returns (merged: Env)
    ensures merged == Overlay(persisted, env)
  {
    merged := persisted;
    var pending := env.Keys;
    while pending != {}
      invariant pending <= env.Keys
      invariant merged.Keys == persisted.Keys + (env.Keys - pending)
      invariant forall k :: k in env.Keys - pending ==> merged[k] == env[k]
      invariant forall k :: k in persisted && k !in env.Keys - pending ==> merged[k] == persisted[k]
      decreases pending
    {
      var k :| k in pending;
      merged := merged[k := env[k]];
      pending := pending - {k};
    }
  }

  /** The argument vector of `ExecCommandInService`, built by successive appends. */
  method BuildExecArgs(detach: bool, serviceName: string, cmds: seq<string>) returns (args: seq<string>)
    ensures args == ExecArgs(detach, serviceName, cmds)
  {
    args := ["exec", "-T"];
    if detach {
      args := args + ["-d"];
    }
    args := args + [serviceName];
    args := args + cmds;
  }

  class DockerServiceManager {
    const store: StateStore<ComposePath>
    const driver: Driver
    const resolve: Resolver

    constructor (store: StateStore<ComposePath>, driver: Driver, resolve: Resolver)
      ensures this.store == store && this.driver == driver && this.resolve == resolve
    {
      this.store := store;
      this.driver := driver;
      this.resolve := resolve;
    }

    ghost function Oracles(): Oracles
    {
      ComposeModel.Oracles(resolve, driver.outcome)
    }

    /** What the manager's operations can change. */
    ghost function World(): World
      reads store, driver
    {
      ComposeModel.World(store.records, driver.calls)
    }

    /** `executeCompose`. */
    method ExecuteCompose(isProfile: bool, names: seq<string>, command: seq<string>, env: Env, filename: seq<string>)
      returns (err: Option<ComposeError>)
      requires |names| > 0
      modifies store, driver
      ensures Outcome(err, World()) == Execute(Oracles(), old(World()), isProfile, names, command, env, filename)
    {
      var resolved := ResolvePaths(resolve, ExecuteRule(isProfile), names, filename);
      if resolved.Err? {
        return Some(resolved.error);
      }
      var paths := resolved.value;
      var failure := driver.Invoke(paths, names[0], command, env);
      if failure.Some? {
        return Some(DriverFailed(paths, failure.value));
      }
      store.Update(Key(paths[0].dirBase, isProfile), paths, env);
      return None;
    }

    /** `AddServicesToCompose`. */
    method AddServicesToCompose(profile: string, composeNames: seq<string>, env: Env, filename: seq<string>)
      returns (err: Option<ComposeError>)
      modifies store, driver
      ensures Outcome(err, World()) == AddServices(Oracles(), old(World()), profile, composeNames, env, filename)
    {
      var names := [profile] + composeNames;
      var persisted := store.Recover(Key(profile, true));
      var merged := MergeEnvironment(persisted, env);
      err := ExecuteCompose(true, names, UpArgs, merged, filename);
    }

    /** `ExecCommandInService`. */
    method ExecCommandInService(profile: string, image: string, serviceName: string, cmds: seq<string>, env: Env,
                                detach: bool) returns (err: Option<ComposeError>)
      modifies store, driver
      ensures Outcome(err, World())
           == ExecInService(Oracles(), old(World()), profile, image, serviceName, cmds, env, detach)
    {
      var composes := [profile, image];
      var args := BuildExecArgs(detach, serviceName, cmds);
      err := RunCommand(profile, composes, args, env);
    }

    /** `RemoveServicesFromCompose`: fail-fast, one `rm -fvs` per service. */
    method RemoveServicesFromCompose(profile: string, composeNames: seq<string>, env: Env)
      returns (err: Option<ComposeError>)
      modifies store, driver
      ensures Outcome(err, World()) == RemoveServices(Oracles(), old(World()), profile, composeNames, env)
    {
      var names := [profile] + composeNames;
      var persisted := store.Recover(Key(profile, true));
      var merged := MergeEnvironment(persisted, env);
      ghost var goal := RemoveServices(Oracles(), old(World()), profile, composeNames, env);
      for i := 0 to |composeNames|
        invariant goal == RemoveEach(Oracles(), World(), names, composeNames[i..], merged)
      {
        err := ExecuteCompose(true, names, RmArgs(composeNames[i]), merged, []);
        if err.Some? {
          return;
        }
      }
      err := None;
    }

    /** `RunCommand`. */
    method RunCommand(profile: string, names: seq<string>, args: seq<string>, env: Env)
      returns (err: Option<ComposeError>)
      requires |names| > 0
      modifies store, driver
      ensures Outcome(err, World()) == ComposeModel.RunCommand(Oracles(), old(World()), profile, names, args, env)
    {
      err := ExecuteCompose(true, names, args, env, []);
    }

    /** `RunCompose`. */
    method RunCompose(isProfile: bool, names: seq<string>, env: Env) returns (err: Option<ComposeError>)
      requires |names| > 0
      modifies store, driver
      ensures Outcome(err, World()) == ComposeModel.RunCompose(Oracles(), old(World()), isProfile, names, env)
    {
      err := ExecuteCompose(isProfile, names, UpArgs, env, []);
    }

    /** `StopCompose`. */
    method StopCompose(isProfile: bool, names: seq<string>) returns (err: Option<ComposeError>)
      requires |names| > 0
      modifies store, driver
      ensures Outcome(err, World()) == ComposeModel.StopCompose(Oracles(), old(World()), isProfile, names)
    {
      var stopPaths := ResolvePaths(resolve, StopRule(isProfile), names, []);
      if stopPaths.Err? {
        return Some(stopPaths.error);
      }
      var id := Key(names[0], isProfile);
      var persisted := store.Recover(id);
      var failure := ExecuteCompose(isProfile, names, DownArgs, persisted, []);
      if failure.Some? {
        return Some(StopFailed(stopPaths.value, failure.value));
      }
      store.Destroy(id);
      return None;
    }
  }
}

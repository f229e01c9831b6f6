/**
 * A value-level model of the docker-compose orchestration in the `compose`
 * package: what each operation of the service manager resolves, which
 * driver calls it makes (in order, with which arguments and environment)
 * and how it changes the persisted state records.
 *
 * The two collaborators the package cannot see are oracles: the descriptor
 * resolver (`config.GetComposeFile`) is a total function, and the compose
 * driver (`tc.NewLocalDockerCompose(...).Invoke()`) answers the n-th call
 * with success or a failure message.
 */
module ComposeModel {
  import opened Results
  import opened State

  /** A resolved descriptor file, with the base name of its parent directory. */
  datatype ComposePath = ComposePath(file: string, dirBase: string)

  /** One call of the compose driver: files, project identifier, argument vector, environment. */
  datatype Invocation = Invocation(paths: seq<ComposePath>, project: string, command: seq<string>, env: Env)

  /** A resolver failure: the path `GetComposeFile` returns alongside its error, and the error. */
  datatype ResolveMiss = ResolveMiss(path: string, reason: string)

  /** The errors the manager returns, one per `fmt.Errorf` site. */
  datatype ComposeError =
    | ResolveFailed(path: string, reason: string)             // "Could not get compose file"
    | DriverFailed(paths: seq<ComposePath>, reason: string)   // "Could not run compose file"
    | StopFailed(paths: seq<ComposePath>, cause: ComposeError) // "Could not stop compose file"

  /** `config.GetComposeFile(isProfile, name, composeFilename...)`. */
  type Resolver = (bool, string, seq<string>) -> Result<ComposePath, ResolveMiss>

  /** The driver's answer to its n-th invocation: `None` for success, or the failure message. */
  type DriverOracle = (nat, Invocation) -> Option<string>

  datatype Oracles = Oracles(resolve: Resolver, driver: DriverOracle)

  /** Everything an operation can change: the persisted records and the driver call log. */
  datatype World = World(records: map<string, Record<ComposePath>>, calls: seq<Invocation>)

  /** What an operation returns (`nil` is `None`) and the world it leaves. */
  datatype Outcome = Outcome(err: Option<ComposeError>, world: World)

  // ---------------------------------------------------------------------
  // Invocation identities
  // ---------------------------------------------------------------------

  function Suffix(isProfile: bool): string
  {
    if isProfile then "-profile" else "-service"
  }

  /** The state-record key: a name and a kind suffix. */
  function Key(name: string, isProfile: bool): (id: string)
    ensures |id| == |name| + 8 && id[..|name|] == name
  {
    name + Suffix(isProfile)
  }

  // ---------------------------------------------------------------------
  // Argument vectors
  // ---------------------------------------------------------------------

  const UpArgs: seq<string> := ["up", "-d"]
  const DownArgs: seq<string> := ["down", "--remove-orphans"]

  function RmArgs(name: string): seq<string>
  {
    ["rm", "-fvs", name]
  }

  // ---------------------------------------------------------------------
  // Environment merge
  // ---------------------------------------------------------------------

  /** The persisted environment overlaid key by key with the caller's. */
  function Overlay(persisted: Env, env: Env): (r: Env)
    ensures r.Keys == persisted.Keys + env.Keys
    ensures forall k :: k in env ==> r[k] == env[k]
    ensures forall k :: k in persisted && k !in env ==> r[k] == persisted[k]
  {
    persisted + env
  }

  // ---------------------------------------------------------------------
  // Descriptor resolution
  // ---------------------------------------------------------------------

  /**
   * Which entries of a name list are resolved as a profile: `executeCompose`
   * uses only the first entry and only for a profile, `StopCompose` uses
   * every entry of a profile and, for a service list, the first entry when
   * that name is one character long.
   */
  datatype ResolveRule = ExecuteRule(isProfile: bool) | StopRule(isProfile: bool)

  function AsProfile(rule: ResolveRule, i: nat, name: string): (b: bool)
    ensures rule.ExecuteRule? ==> (b <==> i == 0 && rule.isProfile)
    ensures rule.StopRule? ==> (b <==> rule.isProfile || (i == 0 && |name| == 1 && name[0] as int < 0x80))
  {
    match rule
    case ExecuteRule(isProfile) => i == 0 && isProfile
    case StopRule(isProfile) => if i == 0 && !isProfile && Utf8Len(name) == 1 then true else isProfile
  }

  /** The number of bytes of the UTF-8 encoding of `s`: what Go's `len` gives for a string. */
  function Utf8Len(s: string): (n: nat)
    ensures |s| <= n <= 4 * |s|
    ensures n == 1 <==> |s| == 1 && s[0] as int < 0x80
  {
    if s == [] then 0
    else
      var c := s[0] as int;
      (if c < 0x80 then 1 else if c < 0x800 then 2 else if c < 0x10000 then 3 else 4) + Utf8Len(s[1..])
  }

  /** The resolver's answer for entry `i` of `names`. */
  function Lookup(resolve: Resolver, rule: ResolveRule, names: seq<string>, filename: seq<string>, i: nat)
    : Result<ComposePath, ResolveMiss>
    requires i < |names|
  {
    resolve(AsProfile(rule, i, names[i]), names[i], filename)
  }

  /**
   * Resolving the first `n` entries in order: the paths, or the path and
   * reason the resolver returned for the first entry that fails.
   */
  function ResolvePrefix(resolve: Resolver, rule: ResolveRule, names: seq<string>, filename: seq<string>, n: nat)
    : (r: Result<seq<ComposePath>, ComposeError>)
    requires n <= |names|
    ensures r.Ok? <==> forall i :: 0 <= i < n ==> Lookup(resolve, rule, names, filename, i).Ok?
    ensures r.Ok? ==> |r.value| == n
    ensures r.Ok? ==> forall i :: 0 <= i < n ==> Lookup(resolve, rule, names, filename, i) == Ok(r.value[i])
    ensures r.Err? ==> exists i :: 0 <= i < n && FirstFailure(resolve, rule, names, filename, i)
                               && r.error == ResolveFailed(Lookup(resolve, rule, names, filename, i).error.path,
                                                                  Lookup(resolve, rule, names, filename, i).error.reason)
  {
    if n == 0 then Ok([])
    else
      match ResolvePrefix(resolve, rule, names, filename, n - 1)
      case Err(e) => Err(e)
      case Ok(paths) =>
        match Lookup(resolve, rule, names, filename, n - 1)
        case Err(reason) =>
          assert FirstFailure(resolve, rule, names, filename, n - 1);
          Err(ResolveFailed(reason.path, reason.reason))
        case Ok(p) => Ok(paths + [p])
  }

  /** Entry `i` is the first entry whose resolution fails. */
  ghost predicate FirstFailure(resolve: Resolver, rule: ResolveRule, names: seq<string>, filename: seq<string>, i: nat)
    requires i < |names|
  {
    && Lookup(resolve, rule, names, filename, i).Err?
    && forall j :: 0 <= j < i ==> Lookup(resolve, rule, names, filename, j).Ok?
  }

  function ResolveAll(resolve: Resolver, rule: ResolveRule, names: seq<string>, filename: seq<string>)
    : Result<seq<ComposePath>, ComposeError>
  {
    ResolvePrefix(resolve, rule, names, filename, |names|)
  }

  // ---------------------------------------------------------------------
  // executeCompose
  // ---------------------------------------------------------------------

  /**
   * `executeCompose`: resolve every entry, invoke the driver once with the
   * first name as project identifier, and on success replace the record
   * keyed by the first path's directory and the kind suffix.
   */
  function Execute(o: Oracles, w: World, isProfile: bool, names: seq<string>, command: seq<string>, env: Env,
                   filename: seq<string>): (out: Outcome)
    requires |names| > 0
    // a resolution failure returns before the driver and the store are touched
    ensures ResolveAll(o.resolve, ExecuteRule(isProfile), names, filename).Err? ==>
      out == Outcome(Some(ResolveAll(o.resolve, ExecuteRule(isProfile), names, filename).error), w)
    // otherwise exactly one driver call, with the resolved paths in order
    ensures ResolveAll(o.resolve, ExecuteRule(isProfile), names, filename).Ok? ==>
      var paths := ResolveAll(o.resolve, ExecuteRule(isProfile), names, filename).value;
      var call := Invocation(paths, names[0], command, env);
      && out.world.calls == w.calls + [call]
      && (out.err.None? <==> o.driver(|w.calls|, call).None?)
      && (out.err.Some? ==> out.err == Some(DriverFailed(paths, o.driver(|w.calls|, call).value)))
    // a failure leaves the records as they were
    ensures out.err.Some? ==> out.world.records == w.records
    // a success replaces exactly one record
    ensures out.err.None? ==>
      var paths := ResolveAll(o.resolve, ExecuteRule(isProfile), names, filename).value;
      var id := Key(paths[0].dirBase, isProfile);
      && out.world.records == w.records[id := Record(paths, env)]
      && (forall k :: k != id ==> (k in out.world.records <==> k in w.records))
      && (forall k :: k != id && k in w.records ==> out.world.records[k] == w.records[k])
  {
    match ResolveAll(o.resolve, ExecuteRule(isProfile), names, filename)
    case Err(e) => Outcome(Some(e), w)
    case Ok(paths) =>
      var call := Invocation(paths, names[0], command, env);
      var calls := w.calls + [call];
      match o.driver(|w.calls|, call)
      case Some(reason) => Outcome(Some(DriverFailed(paths, reason)), w.(calls := calls))
      case None =>
        var id := Key(paths[0].dirBase, isProfile);
        Outcome(None, World(w.records[id := Record(paths, env)], calls))
  }

  /** The call made for one entry of the removal loop. */
  function RmCall(paths: seq<ComposePath>, project: string, name: string, env: Env): Invocation
  {
    Invocation(paths, project, RmArgs(name), env)
  }

  // ---------------------------------------------------------------------
  // The service manager's operations
  // ---------------------------------------------------------------------

  /**
   * `AddServicesToCompose`: one `up -d` over the profile followed by the
   * services, as a profile, with the environment persisted for the profile
   * overlaid by the caller's; the error of `executeCompose` comes back
   * unchanged.
   */
  function AddServices(o: Oracles, w: World, profile: string, composeNames: seq<string>, env: Env,
                       filename: seq<string>): (out: Outcome)
    ensures var res := ResolveAll(o.resolve, ExecuteRule(true), [profile] + composeNames, filename);
            var merged := Overlay(Recovered(w.records, profile + "-profile"), env);
            && (res.Err? ==> out == Outcome(Some(res.error), w))
            && (res.Ok? ==>
                  var call := Invocation(res.value, profile, ["up", "-d"], merged);
                  && out.world.calls == w.calls + [call]
                  && (out.err.None? <==> o.driver(|w.calls|, call).None?)
                  && (out.err.Some? ==> out.err == Some(DriverFailed(res.value, o.driver(|w.calls|, call).value))))
            && (out.err.Some? ==> out.world.records == w.records)
            && (out.err.None? ==>
                  out.world.records == w.records[res.value[0].dirBase + "-profile" := Record(res.value, merged)])
  {
    Execute(o, w, true, [profile] + composeNames, UpArgs,
            Overlay(Recovered(w.records, Key(profile, true)), env), filename)
  }

  /**
   * The fail-fast removal loop: one `rm -fvs <name>` call per target, in
   * order, stopping at the first error. The call log only grows, by at most
   * one call per target, and the j-th new call removes the j-th target with
   * the loop's files, project and environment.
   */
  function RemoveEach(o: Oracles, w: World, names: seq<string>, targets: seq<string>, env: Env): (out: Outcome)
    requires |names| > 0
    ensures targets == [] ==> out == Outcome(None, w)
    ensures w.calls <= out.world.calls && |out.world.calls| <= |w.calls| + |targets|
    ensures |out.world.calls| > |w.calls| ==>
      && ResolveAll(o.resolve, ExecuteRule(true), names, []).Ok?
      && forall j :: |w.calls| <= j < |out.world.calls| ==>
           out.world.calls[j] == Invocation(ResolveAll(o.resolve, ExecuteRule(true), names, []).value, names[0],
                                            RmArgs(targets[j - |w.calls|]), env)
    decreases targets
  {
    if targets == [] then Outcome(None, w)
    else
      var step := Execute(o, w, true, names, RmArgs(targets[0]), env, []);
      if step.err.Some? then step
      else
        RemoveEach(o, step.world, names, targets[1..], env)
  }

  /**
   * `RemoveServicesFromCompose`: the environment is recovered and merged
   * once, before the loop, and every removal call carries it; with no
   * services to remove nothing happens.
   */
  function RemoveServices(o: Oracles, w: World, profile: string, composeNames: seq<string>, env: Env): (out: Outcome)
    ensures composeNames == [] ==> out == Outcome(None, w)
    ensures var res := ResolveAll(o.resolve, ExecuteRule(true), [profile] + composeNames, []);
            res.Err? && composeNames != [] ==> out == Outcome(Some(res.error), w)
    ensures w.calls <= out.world.calls && |out.world.calls| <= |w.calls| + |composeNames|
    ensures forall j :: |w.calls| <= j < |out.world.calls| ==>
      && out.world.calls[j].command == ["rm", "-fvs", composeNames[j - |w.calls|]]
      && out.world.calls[j].project == profile
      && out.world.calls[j].env == Overlay(Recovered(w.records, profile + "-profile"), env)
  {
    RemoveEach(o, w, [profile] + composeNames, composeNames,
               Overlay(Recovered(w.records, Key(profile, true)), env))
  }

  /** The argument vector of `ExecCommandInService`. */
  function ExecArgs(detach: bool, serviceName: string, cmds: seq<string>): (args: seq<string>)
    ensures |args| == (if detach then 4 else 3) + |cmds|
    ensures args[..2] == ["exec", "-T"]
    ensures detach ==> args[2] == "-d"
    ensures args[|args| - |cmds| - 1] == serviceName && args[|args| - |cmds|..] == cmds
  {
    ["exec", "-T"] + (if detach then ["-d"] else []) + [serviceName] + cmds
  }

  /**
   * `RunCommand`: a raw pass-through of the caller's arguments and
   * environment, always resolved and keyed as a profile; `profile` itself is
   * unused.
   */
  function RunCommand(o: Oracles, w: World, profile: string, names: seq<string>, args: seq<string>, env: Env)
    : (out: Outcome)
    requires |names| > 0
    ensures var res := ResolveAll(o.resolve, ExecuteRule(true), names, []);
            && (res.Err? ==> out == Outcome(Some(res.error), w))
            && (res.Ok? ==>
                  var call := Invocation(res.value, names[0], args, env);
                  && out.world.calls == w.calls + [call]
                  && (out.err.None? <==> o.driver(|w.calls|, call).None?)
                  && (out.err.Some? ==> out.err == Some(DriverFailed(res.value, o.driver(|w.calls|, call).value))))
            && (out.err.Some? ==> out.world.records == w.records)
            && (out.err.None? ==>
                  out.world.records == w.records[res.value[0].dirBase + "-profile" := Record(res.value, env)])
  {
    Execute(o, w, true, names, args, env, [])
  }

  /**
   * `ExecCommandInService`: the command runs against the profile and the
   * image's descriptor; the error of the pass-through comes back unchanged,
   * and a success refreshes the profile's directory-derived record.
   */
  function ExecInService(o: Oracles, w: World, profile: string, image: string, serviceName: string,
                         cmds: seq<string>, env: Env, detach: bool): (out: Outcome)
    ensures var res := ResolveAll(o.resolve, ExecuteRule(true), [profile, image], []);
            && (res.Err? ==> out == Outcome(Some(res.error), w))
            && (res.Ok? ==>
                  var call := Invocation(res.value, profile, ExecArgs(detach, serviceName, cmds), env);
                  && out.world.calls == w.calls + [call]
                  && (out.err.Some? <==> o.driver(|w.calls|, call).Some?)
                  && (out.err.Some? ==> out.err.value == DriverFailed(res.value, o.driver(|w.calls|, call).value)))
            && (out.err.Some? ==> out.world.records == w.records)
            && (out.err.None? ==>
                  out.world.records == w.records[res.value[0].dirBase + "-profile" := Record(res.value, env)])
  {
    RunCommand(o, w, profile, [profile, image], ExecArgs(detach, serviceName, cmds), env)
  }

  /** `RunCompose`: `up -d` with the caller's environment, not merged with the persisted one. */
  function RunCompose(o: Oracles, w: World, isProfile: bool, names: seq<string>, env: Env): (out: Outcome)
    requires |names| > 0
    ensures var res := ResolveAll(o.resolve, ExecuteRule(isProfile), names, []);
            && (res.Err? ==> out == Outcome(Some(res.error), w))
            && (res.Ok? ==>
                  var call := Invocation(res.value, names[0], ["up", "-d"], env);
                  && out.world.calls == w.calls + [call]
                  && (out.err.None? <==> o.driver(|w.calls|, call).None?)
                  && (out.err.Some? ==> out.err == Some(DriverFailed(res.value, o.driver(|w.calls|, call).value))))
            && (out.err.Some? ==> out.world.records == w.records)
            && (out.err.None? ==>
                  out.world.records == w.records[Key(res.value[0].dirBase, isProfile) := Record(res.value, env)])
  {
    Execute(o, w, isProfile, names, UpArgs, env, [])
  }

  /**
   * `StopCompose`: resolve with the stop rule (only to fail early and to
   * decorate the error), bring the composition down with the environment
   * recovered under the first name's key, and destroy that key exactly when
   * `down` succeeds. The record written by `executeCompose`'s own update is
   * written before the destroy runs.
   */
  function StopCompose(o: Oracles, w: World, isProfile: bool, names: seq<string>): (out: Outcome)
    requires |names| > 0
    // a failing stop-rule resolution returns before anything else happens
    ensures ResolveAll(o.resolve, StopRule(isProfile), names, []).Err? ==>
      out == Outcome(Some(ResolveAll(o.resolve, StopRule(isProfile), names, []).error), w)
    // a failing resolution inside `executeCompose` is wrapped with the stop-rule paths; nothing else happens
    ensures ResolveAll(o.resolve, StopRule(isProfile), names, []).Ok?
            && ResolveAll(o.resolve, ExecuteRule(isProfile), names, []).Err? ==>
      out == Outcome(Some(StopFailed(ResolveAll(o.resolve, StopRule(isProfile), names, []).value,
                                     ResolveAll(o.resolve, ExecuteRule(isProfile), names, []).error)), w)
    // otherwise `down --remove-orphans` runs once, with the environment recovered under the first
    // name's key, and the stop succeeds exactly when that call does
    ensures ResolveAll(o.resolve, StopRule(isProfile), names, []).Ok?
            && ResolveAll(o.resolve, ExecuteRule(isProfile), names, []).Ok? ==>
      var stopPaths := ResolveAll(o.resolve, StopRule(isProfile), names, []).value;
      var paths := ResolveAll(o.resolve, ExecuteRule(isProfile), names, []).value;
      var call := Invocation(paths, names[0], ["down", "--remove-orphans"], Recovered(w.records, Key(names[0], isProfile)));
      && out.world.calls == w.calls + [call]
      && (out.err.None? <==> o.driver(|w.calls|, call).None?)
      && (out.err.Some? ==> out.err == Some(StopFailed(stopPaths, DriverFailed(paths, o.driver(|w.calls|, call).value))))
    // a failure leaves the records as they were
    ensures out.err.Some? ==> out.world.records == w.records
    // a success leaves no record under the first name's key, and at most the
    // directory-derived key written by the driver step besides
    ensures out.err.None? ==>
      && ResolveAll(o.resolve, ExecuteRule(isProfile), names, []).Ok?
      && var id := Key(names[0], isProfile);
      var paths := ResolveAll(o.resolve, ExecuteRule(isProfile), names, []).value;
      && id !in out.world.records
      && out.world.records == w.records[Key(paths[0].dirBase, isProfile) := Record(paths, Recovered(w.records, id))] - {id}
  {
    match ResolveAll(o.resolve, StopRule(isProfile), names, [])
    case Err(e) => Outcome(Some(e), w)
    case Ok(stopPaths) =>
      var id := Key(names[0], isProfile);
      var step := Execute(o, w, isProfile, names, DownArgs, Recovered(w.records, id), []);
      if step.err.Some? then Outcome(Some(StopFailed(stopPaths, step.err.value)), step.world)
      else Outcome(None, step.world.(records := step.world.records - {id}))
  }
}

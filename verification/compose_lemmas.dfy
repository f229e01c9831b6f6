/**
 * Properties of the compose model that relate several steps: identities do
 * not collide, the removal loop is fail-fast, and a record written by a
 * bring-up is what a later operation recovers.
 */
module ComposeLemmas {
  import opened Results
  import opened State
  import opened ComposeModel

  /** A name and a kind determine the state key, and the key determines both. */
  lemma KeyInjective(a: string, b: string, p: bool, q: bool)
    ensures Key(a, p) == Key(b, q) <==> a == b && p == q
  {
  }

  /** Once a prefix of the names fails to resolve, every longer prefix fails with the same error. */
  lemma ResolveErrorPersists(resolve: Resolver, rule: ResolveRule, names: seq<string>,
                                                filename: seq<string>, m: nat, n: nat)
    requires m <= n <= |names|
    requires ResolvePrefix(resolve, rule, names, filename, m).Err?
    ensures ResolvePrefix(resolve, rule, names, filename, n) == ResolvePrefix(resolve, rule, names, filename, m)
  {
  }

  // ---------------------------------------------------------------------
  // The removal loop
  // ---------------------------------------------------------------------

  /** The driver's answer to the removal call for `targets[j]`, made as call number `start + j`. */
  function RmOutcome(o: Oracles, start: nat, paths: seq<ComposePath>, project: string, targets: seq<string>,
                     env: Env, j: nat): Option<string>
    requires j < |targets|
  {
    o.driver(start + j, RmCall(paths, project, targets[j], env))
  }

  /** The removal calls for every target, in order. */
  function RmCalls(paths: seq<ComposePath>, project: string, targets: seq<string>, env: Env): seq<Invocation>
  {
    if targets == [] then [] else [RmCall(paths, project, targets[0], env)] + RmCalls(paths, project, targets[1..], env)
  }

  /** One turn of the removal loop, once the descriptors have resolved to `paths`. */
  lemma RemoveEachStep(o: Oracles, w: World, names: seq<string>, targets: seq<string>, env: Env, paths: seq<ComposePath>)
    requires |names| > 0 && targets != []
    requires ResolveAll(o.resolve, ExecuteRule(true), names, []) == Ok(paths)
    ensures var call := RmCall(paths, names[0], targets[0], env);
            var answer := o.driver(|w.calls|, call);
            RemoveEach(o, w, names, targets, env) ==
              if answer.Some? then Outcome(Some(DriverFailed(paths, answer.value)), w.(calls := w.calls + [call]))
              else RemoveEach(o, World(w.records[Key(paths[0].dirBase, true) := Record(paths, env)], w.calls + [call]),
                              names, targets[1..], env)
  {
  }

  /**
   * When every descriptor resolves, the loop succeeds exactly when every
   * removal call succeeds, and then it has made one call per target, in order.
   */
  lemma {:induction false} RemoveEachSucceeds(o: Oracles, w: World, names: seq<string>, targets: seq<string>, env: Env,
                                              paths: seq<ComposePath>)
    requires |names| > 0
    requires ResolveAll(o.resolve, ExecuteRule(true), names, []) == Ok(paths)
    ensures var out := RemoveEach(o, w, names, targets, env);
            && (out.err.None? <==>
                  forall j :: 0 <= j < |targets| ==> RmOutcome(o, |w.calls|, paths, names[0], targets, env, j).None?)
            && (out.err.None? ==> out.world.calls == w.calls + RmCalls(paths, names[0], targets, env))
    decreases targets
  {
    if targets != [] {
      RemoveEachStep(o, w, names, targets, env, paths);
      var call := RmCall(paths, names[0], targets[0], env);
      assert RmOutcome(o, |w.calls|, paths, names[0], targets, env, 0) == o.driver(|w.calls|, call);
      if o.driver(|w.calls|, call).None? {
        var w1 := World(w.records[Key(paths[0].dirBase, true) := Record(paths, env)], w.calls + [call]);
        RemoveEachSucceeds(o, w1, names, targets[1..], env, paths);
        forall j | 0 <= j < |targets| - 1
          ensures RmOutcome(o, |w1.calls|, paths, names[0], targets[1..], env, j)
               == RmOutcome(o, |w.calls|, paths, names[0], targets, env, j + 1)
        {
        }
        var rest := RemoveEach(o, w1, names, targets[1..], env);
        if rest.err.None? {
          forall j | 0 <= j < |targets|
            ensures RmOutcome(o, |w.calls|, paths, names[0], targets, env, j).None?
          {
            if j > 0 {
              assert RmOutcome(o, |w1.calls|, paths, names[0], targets[1..], env, j - 1).None?;
            }
          }
          assert [call] + RmCalls(paths, names[0], targets[1..], env) == RmCalls(paths, names[0], targets, env);
        } else {
          var j :| 0 <= j < |targets| - 1 && RmOutcome(o, |w1.calls|, paths, names[0], targets[1..], env, j).Some?;
          assert RmOutcome(o, |w.calls|, paths, names[0], targets, env, j + 1).Some?;
        }
      }
    }
  }

  /** `RmCalls` has one call per target, the j-th removing `targets[j]`. */
  lemma {:induction false} RmCallsAt(paths: seq<ComposePath>, project: string, targets: seq<string>, env: Env, j: nat)
    requires j < |targets|
    ensures |RmCalls(paths, project, targets, env)| == |targets|
    ensures RmCalls(paths, project, targets, env)[j] == RmCall(paths, project, targets[j], env)
    decreases targets
  {
    if j > 0 {
      RmCallsAt(paths, project, targets[1..], env, j - 1);
    } else if |targets| > 1 {
      RmCallsAt(paths, project, targets[1..], env, 0);
    }
  }

  lemma RmCallsCons(paths: seq<ComposePath>, project: string, targets: seq<string>, env: Env, n: nat)
    requires 0 < n <= |targets|
    ensures RmCalls(paths, project, targets[..n], env)
         == [RmCall(paths, project, targets[0], env)] + RmCalls(paths, project, targets[1..][..n - 1], env)
  {
    assert targets[..n][1..] == targets[1..][..n - 1];
  }

  /**
   * If removal call `k` is the first to fail, the loop returns that driver
   * error and has made exactly the calls for `targets[..k+1]`: no later
   * target is attempted.
   */
  lemma {:induction false} RemoveEachStopsAtFirstFailure(o: Oracles, w: World, names: seq<string>, targets: seq<string>,
                                                         env: Env, paths: seq<ComposePath>, k: nat)
    requires |names| > 0
    requires ResolveAll(o.resolve, ExecuteRule(true), names, []) == Ok(paths)
    requires k < |targets|
    requires forall j :: 0 <= j < k ==> RmOutcome(o, |w.calls|, paths, names[0], targets, env, j).None?
    requires RmOutcome(o, |w.calls|, paths, names[0], targets, env, k).Some?
    ensures var out := RemoveEach(o, w, names, targets, env);
            && out.err == Some(DriverFailed(paths, RmOutcome(o, |w.calls|, paths, names[0], targets, env, k).value))
            && out.world.calls == w.calls + RmCalls(paths, names[0], targets[..k + 1], env)
    decreases targets
  {
    var call := RmCall(paths, names[0], targets[0], env);
    RemoveEachStep(o, w, names, targets, env, paths);
    assert RmOutcome(o, |w.calls|, paths, names[0], targets, env, 0) == o.driver(|w.calls|, call);
    if k == 0 {
      assert RmCalls(paths, names[0], targets[..1], env) == [call];
    } else {
      var w1 := World(w.records[Key(paths[0].dirBase, true) := Record(paths, env)], w.calls + [call]);
      forall j | 0 <= j < |targets| - 1
        ensures RmOutcome(o, |w1.calls|, paths, names[0], targets[1..], env, j)
             == RmOutcome(o, |w.calls|, paths, names[0], targets, env, j + 1)
      {
      }
      assert o.driver(|w.calls|, call).None?;
      assert forall j :: 0 <= j < k - 1 ==> RmOutcome(o, |w1.calls|, paths, names[0], targets[1..], env, j).None?;
      RemoveEachStopsAtFirstFailure(o, w1, names, targets[1..], env, paths, k - 1);
      RmCallsCons(paths, names[0], targets, env, k + 1);
      assert w.calls + RmCalls(paths, names[0], targets[..k + 1], env)
          == w1.calls + RmCalls(paths, names[0], targets[1..][..k], env);
    }
  }

  /**
   * The loop changes at most one record: the profile's directory key, set to
   * the merged environment, and it does so exactly when the first removal
   * call succeeds.
   */
  lemma {:induction false} RemoveEachRecords(o: Oracles, w: World, names: seq<string>, targets: seq<string>, env: Env,
                                             paths: seq<ComposePath>)
    requires |names| > 0
    requires ResolveAll(o.resolve, ExecuteRule(true), names, []) == Ok(paths)
    ensures RemoveEach(o, w, names, targets, env).world.records ==
              if targets != [] && RmOutcome(o, |w.calls|, paths, names[0], targets, env, 0).None?
              then w.records[Key(paths[0].dirBase, true) := Record(paths, env)]
              else w.records
    decreases targets
  {
    if targets != [] {
      var call := RmCall(paths, names[0], targets[0], env);
      RemoveEachStep(o, w, names, targets, env, paths);
      assert RmOutcome(o, |w.calls|, paths, names[0], targets, env, 0) == o.driver(|w.calls|, call);
      if o.driver(|w.calls|, call).None? {
        var w1 := World(w.records[Key(paths[0].dirBase, true) := Record(paths, env)], w.calls + [call]);
        RemoveEachRecords(o, w1, names, targets[1..], env, paths);
        if targets[1..] != [] {
          assert RmOutcome(o, |w1.calls|, paths, names[0], targets[1..], env, 0)
              == RmOutcome(o, |w.calls|, paths, names[0], targets, env, 1);
        }
      }
    }
  }

  /** A descriptor that does not resolve stops the loop before any driver call, unless there is nothing to remove. */
  lemma RemoveEachResolutionFailure(o: Oracles, w: World, names: seq<string>, targets: seq<string>, env: Env)
    requires |names| > 0
    requires ResolveAll(o.resolve, ExecuteRule(true), names, []).Err?
    ensures RemoveEach(o, w, names, targets, env) ==
      if targets == [] then Outcome(None, w)
      else Outcome(Some(ResolveAll(o.resolve, ExecuteRule(true), names, []).error), w)
  {
  }

  // ---------------------------------------------------------------------
  // Persisted environments across operations
  // ---------------------------------------------------------------------

  /**
   * With the conventional layout (the profile's descriptor lives in a
   * directory named after it), a successful `AddServicesToCompose` persists
   * the merged environment, so the next operation on the profile recovers it.
   */
  lemma AddServicesPersistsEnv(o: Oracles, w: World, profile: string, composeNames: seq<string>, env: Env,
                               filename: seq<string>)
    requires AddServices(o, w, profile, composeNames, env, filename).err.None?
    requires ResolveAll(o.resolve, ExecuteRule(true), [profile] + composeNames, filename).value[0].dirBase == profile
    ensures var out := AddServices(o, w, profile, composeNames, env, filename);
            Recovered(out.world.records, profile + "-profile") == Overlay(Recovered(w.records, profile + "-profile"), env)
  {
  }

  /**
   * Bring-up then tear-down: with the conventional layout, `StopCompose`
   * after a successful `RunCompose` runs `down` with the environment the
   * bring-up used and, on success, leaves the records as they were before
   * the bring-up except that the topology's key is gone.
   */
  lemma RunThenStop(o: Oracles, w: World, isProfile: bool, names: seq<string>, env: Env)
    requires |names| > 0
    requires RunCompose(o, w, isProfile, names, env).err.None?
    requires ResolveAll(o.resolve, ExecuteRule(isProfile), names, []).value[0].dirBase == names[0]
    ensures var w1 := RunCompose(o, w, isProfile, names, env).world;
            var out := StopCompose(o, w1, isProfile, names);
            && (ResolveAll(o.resolve, StopRule(isProfile), names, []).Ok? ==>
                  |out.world.calls| == |w1.calls| + 1 && out.world.calls[|w1.calls|].env == env)
            && (out.err.None? ==> out.world.records == w.records - {Key(names[0], isProfile)})
  {
  }

  /**
   * The stop rule's length test counts UTF-8 bytes: a one-character ASCII
   * name qualifies, a one-character name outside ASCII does not.
   */
  lemma StopRuleCountsBytes()
    ensures AsProfile(StopRule(false), 0, "a")
    ensures !AsProfile(StopRule(false), 0, "\U{e9}")
    ensures !AsProfile(StopRule(false), 1, "a")
  {
  }
}

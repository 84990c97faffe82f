/** The plugin object: its configuration, its resolved run options, the set
    of standard streams it has handed out, its hook bindings, and the effects
    its handlers perform, recorded in order as a trace of actions. */
module Hooks {
  import opened Js
  import opened Prefix
  import opened Streams
  import opened Scripts
  import opened Context

  /** `serverless.service.custom['serverless-hooks']`; a missing entry is
      `PluginConfig(None, None)`. */
  datatype PluginConfig = PluginConfig(
    hookPrefix: Option<string>,
    runAllOptions: Option<map<string, Value>>)

  /** The environment variable that carries the context file's path. */
  const ContextVariable: string := "SLS_CONTEXT"

  /** An effect of a handler, in the order the handler performs it. */
  datatype Action =
    | SetEnv(variable: string, value: string)
    | WriteFile(path: string, context: ServerlessContext)
    | RegisterExitHook(unlinkPath: string)
    | SetMaxListeners(stream: string, n: nat)
    | RunAll(scriptName: Option<string>, options: map<string, RunOption>)

  /** The script names handed to the script runner, in order; `None` is an
      `undefined` name. */
  function Runs(t: seq<Action>): seq<Option<string>> {
    if t == [] then []
    else (if t[0].RunAll? then [t[0].scriptName] else []) + Runs(t[1..])
  }

  lemma {:induction false} RunsAppend(a: seq<Action>, b: seq<Action>)
    ensures Runs(a + b) == Runs(a) + Runs(b)
  {
    if a == [] {
      assert a + b == b;
    } else {
      assert (a + b)[0] == a[0];
      assert (a + b)[1..] == a[1..] + b;
      RunsAppend(a[1..], b);
    }
  }

  /** A trace without a run of the script runner runs nothing. */
  lemma {:induction false} RunsNone(t: seq<Action>)
    requires forall a :: a in t ==> !a.RunAll?
    ensures Runs(t) == []
  {
    if t != [] {
      assert forall a :: a in t[1..] ==> a in t;
      RunsNone(t[1..]);
    }
  }

  /** `setupServerlessContext` (src/index.js lines 87-94): the variable is
      set to the temporary path before the file is written, and the file's
      removal is registered for process exit once it exists. */
  function ContextSetupActions(host: Host, tmpPath: string): (t: seq<Action>)
    ensures Runs(t) == []
    ensures |t| == 3 && t[0].SetEnv? && t[1].WriteFile? && t[2].RegisterExitHook?
    ensures t[0].variable == ContextVariable && t[0].value == t[1].path == t[2].unlinkPath == tmpPath
    ensures t[1].context == CreateServerlessContext(host)
  {
    var t := [SetEnv(ContextVariable, tmpPath), WriteFile(tmpPath, CreateServerlessContext(host)), RegisterExitHook(tmpPath)];
    RunsNone(t);
    t
  }

  /** `setMaxListeners(0)` on each used standard stream, in the order the
      stream names were added to the set (the order of `names`). */
  function ListenerActions(used: set<string>, names: seq<string>): seq<Action> {
    if names == [] then []
    else
      var m := |names| - 1;
      ListenerActions(used, names[..m]) + (if names[m] in used then [SetMaxListeners(names[m], 0)] else [])
  }

  /** Lifting listener limits touches each used stream among `names`,
      touches no other stream, and runs nothing. */
  lemma {:induction false} ListenerActionsSpec(used: set<string>, names: seq<string>)
    ensures var t := ListenerActions(used, names);
      && |t| <= |names|
      && (forall a :: a in t ==> a.SetMaxListeners? && a.stream in used && a.stream in names && a.n == 0)
      && (forall n :: n in used && n in names ==> SetMaxListeners(n, 0) in t)
      && Runs(t) == []
  {
    if names != [] {
      var m := |names| - 1;
      ListenerActionsSpec(used, names[..m]);
      assert forall n :: n in names ==> n in names[..m] || n == names[m];
      RunsNone(ListenerActions(used, names));
    }
  }

  /** Distinct stream names are each touched at most once. */
  lemma {:induction false} ListenerActionsOnce(used: set<string>, names: seq<string>)
    requires forall i, j :: 0 <= i < j < |names| ==> names[i] != names[j]
    ensures forall k :: 0 <= k < |ListenerActions(used, names)| ==>
              ListenerActions(used, names)[k].SetMaxListeners? && ListenerActions(used, names)[k].stream in names
    ensures forall i, j :: 0 <= i < j < |ListenerActions(used, names)| ==>
              ListenerActions(used, names)[i] != ListenerActions(used, names)[j]
  {
    if names != [] {
      var m := |names| - 1;
      var done := names[..m];
      assert forall i :: 0 <= i < m ==> done[i] == names[i];
      ListenerActionsOnce(used, done);
      var prior := ListenerActions(used, done);
      var step := if names[m] in used then [SetMaxListeners(names[m], 0)] else [];
      var t := prior + step;
      assert ListenerActions(used, names) == t;
      assert names[m] !in done by {
        forall i | 0 <= i < m ensures done[i] != names[m] {
          assert done[i] == names[i];
        }
      }
      forall k | 0 <= k < |t| ensures t[k].SetMaxListeners? && t[k].stream in names {
        if k < |prior| {
          assert t[k] == prior[k] && prior[k].stream in done;
        }
      }
      forall i, j | 0 <= i < j < |t| ensures t[i] != t[j] {
        if j >= |prior| {
          assert t[i] == prior[i] && prior[i].stream in done;
          assert t[j] == step[0] && t[j].stream == names[m];
        } else {
          assert t[i] == prior[i] && t[j] == prior[j];
        }
      }
    }
  }

  /** Everything firing `initialize` does (src/index.js lines 80-85). */
  function InitializeActions(host: Host, tmpPath: string, used: set<string>, isSynthetic: bool,
                             options: map<string, RunOption>): seq<Action>
  {
    ContextSetupActions(host, tmpPath) + AfterSetup(used, isSynthetic, options)
  }

  /** Firing `initialize` first sets up the context, and ends with a run
      with an undefined script name (line 84 calls `onHook()` without its
      argument) unless the binding is synthetic. */
  lemma InitializeActionsSpec(host: Host, tmpPath: string, used: set<string>, isSynthetic: bool,
                              options: map<string, RunOption>)
    ensures var t := InitializeActions(host, tmpPath, used, isSynthetic, options);
      && |t| >= 3 && t[..3] == ContextSetupActions(host, tmpPath)
      && (!isSynthetic ==> t[|t| - 1] == RunAll(None, options))
  {
    var setup := ContextSetupActions(host, tmpPath);
    var rest := AfterSetup(used, isSynthetic, options);
    assert InitializeActions(host, tmpPath, used, isSynthetic, options) == setup + rest;
    TailRuns(used, isSynthetic, options);
    assert (setup + rest)[..3] == setup;
  }

  /** Firing `initialize` runs the script runner exactly once, with an
      undefined script name, unless the binding is synthetic, in which case
      it runs nothing. */
  lemma InitializeRuns(host: Host, tmpPath: string, used: set<string>, isSynthetic: bool,
                       options: map<string, RunOption>)
    ensures Runs(InitializeActions(host, tmpPath, used, isSynthetic, options)) == (if isSynthetic then [] else [None])
  {
    var setup := ContextSetupActions(host, tmpPath);
    var rest := AfterSetup(used, isSynthetic, options);
    TailRuns(used, isSynthetic, options);
    RunsAppend(setup, rest);
  }

  /** Between context setup and the run, firing `initialize` lifts the
      listener limit once on each used standard stream and on no other
      stream, and does nothing else. */
  lemma InitializeListeners(host: Host, tmpPath: string, used: set<string>, isSynthetic: bool,
                            options: map<string, RunOption>)
    ensures var t := InitializeActions(host, tmpPath, used, isSynthetic, options);
      && |t| >= 3
      && (forall n :: n in used && n in StdStreamNames ==> SetMaxListeners(n, 0) in t)
      && (forall a :: a in t[3..] ==> (a.SetMaxListeners? && a.stream in used && a.n == 0) || a == RunAll(None, options))
      && (forall i, j :: 3 <= i < j < |t| ==> t[i] != t[j])
  {
    var setup := ContextSetupActions(host, tmpPath);
    var rest := AfterSetup(used, isSynthetic, options);
    var t := setup + rest;
    assert InitializeActions(host, tmpPath, used, isSynthetic, options) == t;
    TailListeners(used, isSynthetic, options);
    assert t[3..] == rest;
    forall n | n in used && n in StdStreamNames ensures SetMaxListeners(n, 0) in t {
      var k :| 0 <= k < |rest| && rest[k] == SetMaxListeners(n, 0);
      assert t[k + 3] == rest[k];
    }
    forall i, j | 3 <= i < j < |t| ensures t[i] != t[j] {
      assert t[i] == rest[i - 3] && t[j] == rest[j - 3];
    }
  }

  /** The part of the initialize trace after context setup. */
  function AfterSetup(used: set<string>, isSynthetic: bool, options: map<string, RunOption>): seq<Action> {
    ListenerActions(used, StdStreamNames) + (if isSynthetic then [] else [RunAll(None, options)])
  }

  /** After context setup, at most one run, last. */
  lemma TailRuns(used: set<string>, isSynthetic: bool, options: map<string, RunOption>)
    ensures var rest := AfterSetup(used, isSynthetic, options);
      && Runs(rest) == (if isSynthetic then [] else [None])
      && (!isSynthetic ==> |rest| > 0 && rest[|rest| - 1] == RunAll(None, options))
  {
    var listeners := ListenerActions(used, StdStreamNames);
    var run: seq<Action> := if isSynthetic then [] else [RunAll(None, options)];
    ListenerActionsSpec(used, StdStreamNames);
    RunsAppend(listeners, run);
  }

  /** After context setup come the listener actions, each once, and
      possibly the run. */
  lemma TailListeners(used: set<string>, isSynthetic: bool, options: map<string, RunOption>)
    ensures var rest := AfterSetup(used, isSynthetic, options);
      && (forall n :: n in used && n in StdStreamNames ==> SetMaxListeners(n, 0) in rest)
      && (forall a :: a in rest ==> (a.SetMaxListeners? && a.stream in used && a.n == 0) || a == RunAll(None, options))
      && (forall i, j :: 0 <= i < j < |rest| ==> rest[i] != rest[j])
  {
    var listeners := ListenerActions(used, StdStreamNames);
    var run: seq<Action> := if isSynthetic then [] else [RunAll(None, options)];
    var rest := listeners + run;
    assert forall i, j :: 0 <= i < j < |StdStreamNames| ==> StdStreamNames[i] != StdStreamNames[j];
    ListenerActionsSpec(used, StdStreamNames);
    ListenerActionsOnce(used, StdStreamNames);
    forall i, j | 0 <= i < j < |rest| ensures rest[i] != rest[j] {
      if j >= |listeners| {
        assert rest[i] in listeners || i == j;
      }
    }
  }

  lemma AppendAssoc<T>(a: seq<T>, b: seq<T>, c: seq<T>)
    ensures a + b + c == a + (b + c)
  {
  }

  /** Every stream field is resolved, and `used` holds exactly the fields
      that resolved to a standard stream. */
  ghost predicate StreamsResolved(options: map<string, RunOption>, used: set<string>) {
    && (forall n :: n in StdStreamNames ==> n in options && options[n].Resolved?)
    && used <= {"stdin", "stdout", "stderr"}
    && forall n :: n in used <==> n in options && options[n] == Resolved(Std(n))
  }

  /** Construction establishes the stream invariant. */
  lemma ResolutionInvariant(merged: map<string, Value>)
    requires forall n :: n in StdStreamNames ==> n in merged
    ensures StreamsResolved(ResolvedRunOptions(merged), UsedStandardStreams(merged))
  {
  }

  class ServerlessHooks {
    const pluginName: string
    var hookPrefix: string
    var runAllOptions: map<string, RunOption>
    var usedStandardStreams: set<string>
    var hooks: map<string, Handler>
    /** The effects performed so far. */
    var trace: seq<Action>

    /** Every stream field is resolved, and the used set holds exactly the
        fields that resolved to a standard stream. */
    ghost predicate Valid()
      reads this
    {
      StreamsResolved(runAllOptions, usedStandardStreams)
    }

    /** The constructor (src/index.js lines 9-21). The plugin's entry of
        `serverless.service.custom` is given as `config`, and the package's
        scripts as `pkg` in place of `require`-ing `package.json`. */
    constructor (config: PluginConfig, pkg: Option<Entries<ScriptValue>>)
      ensures Valid()
      ensures pluginName == "serverless-hooks"
      ensures hookPrefix == NormalizePrefix(config.hookPrefix)
      ensures runAllOptions == ResolvedRunOptions(MergedRunOptions(config.runAllOptions))
      ensures usedStandardStreams == UsedStandardStreams(MergedRunOptions(config.runAllOptions))
      ensures hooks == BuildHooks(NodeScripts(pkg), hookPrefix)
      ensures trace == []
    {
      var prefix := NormalizePrefix(config.hookPrefix);
      var merged := MergedRunOptions(config.runAllOptions);
      pluginName := "serverless-hooks";
      hookPrefix := prefix;
      runAllOptions := Unresolved(merged);
      usedStandardStreams := {};
      hooks := BuildHooks(NodeScripts(pkg), prefix);
      trace := [];
      new;
      SetupStreams(merged);
    }

    /** The `forEach` of src/index.js line 18: resolves `stdin`, `stdout` and
        `stderr` in that order. `merged` names the options as merged, before
        any field was resolved. */
    method SetupStreams(ghost merged: map<string, Value>)
      requires forall n :: n in StdStreamNames ==> n in merged
      requires runAllOptions == Unresolved(merged) && usedStandardStreams == {}
      modifies this
      ensures Valid()
      ensures runAllOptions == ResolvedRunOptions(merged)
      ensures usedStandardStreams == UsedStandardStreams(merged)
      ensures hookPrefix == old(hookPrefix) && hooks == old(hooks) && trace == old(trace)
    {
      for i := 0 to |StdStreamNames|
        invariant hookPrefix == old(hookPrefix) && hooks == old(hooks) && trace == old(trace)
        invariant runAllOptions == ResolvedFields(merged, StdStreamNames[..i])
        invariant usedStandardStreams == UsedFields(merged, StdStreamNames[..i])
      {
        var name := StdStreamNames[i];
        ghost var done := StdStreamNames[..i];
        assert StdStreamNames[..i + 1][..i] == done && StdStreamNames[..i + 1][i] == name;
        ResolvedFieldsUntouched(merged, done, name);
        ResolveFromConfigured(merged, runAllOptions, name);
        SetupStream(name);
      }
      assert StdStreamNames[..|StdStreamNames|] == StdStreamNames;
      ResolvedFieldsComplete(merged, StdStreamNames);
      ResolutionInvariant(merged);
    }

    /** `setupStream` (src/index.js lines 23-29): rewrites one stream field in
        place, recording the name when it selects a standard stream. */
    method SetupStream(name: string)
      modifies this
      ensures var h := ResolveStream(name, ConfiguredValue(old(runAllOptions), name));
        && runAllOptions == old(runAllOptions)[name := Resolved(h)]
        && usedStandardStreams == old(usedStandardStreams) + (if h.Std? then {name} else {})
      ensures hookPrefix == old(hookPrefix) && hooks == old(hooks) && trace == old(trace)
    {
      var value := ConfiguredValue(runAllOptions, name);
      var isWritable := name != "stdin";
      var h: StreamHandle;
      if IsStringOrObject(value) {
        h := CreateStream(value, isWritable);
      } else if Truthy(value) {
        h := AllocateStdStream(name);
      } else {
        h := NoStream;
      }
      runAllOptions := runAllOptions[name := Resolved(h)];
    }

    /** `allocateStdStream` (src/index.js lines 31-34). */
    method AllocateStdStream(name: string) returns (h: StreamHandle)
      modifies this
      ensures h == Std(name)
      ensures usedStandardStreams == old(usedStandardStreams) + {name}
      ensures runAllOptions == old(runAllOptions) && hookPrefix == old(hookPrefix)
      ensures hooks == old(hooks) && trace == old(trace)
    {
      usedStandardStreams := usedStandardStreams + {name};
      h := Std(name);
    }

    /** `onInitialize` (src/index.js lines 80-85); `host` is the state of the
        `serverless` object when the handler runs, and `tmpPath` is the name
        `tmp.tmpName()` allocates. The script name is not used. */
    method OnInitialize(host: Host, scriptName: string, isSynthetic: bool, tmpPath: string)
      requires Valid()
      modifies this
      ensures Valid()
      ensures trace == old(trace) + InitializeActions(host, tmpPath, usedStandardStreams, isSynthetic, runAllOptions)
      ensures runAllOptions == old(runAllOptions) && usedStandardStreams == old(usedStandardStreams)
      ensures hookPrefix == old(hookPrefix) && hooks == old(hooks)
    {
      SetupServerlessContext(host, tmpPath);
      RaiseListenerLimits();
      ghost var setup, raised := ContextSetupActions(host, tmpPath), ListenerActions(usedStandardStreams, StdStreamNames);
      AppendAssoc(old(trace), setup, raised);
      if isSynthetic {
        return;
      }
      OnHook(None);
      AppendAssoc(old(trace), setup + raised, [RunAll(None, runAllOptions)]);
    }

    /** The `usedStandardStreams.forEach` of src/index.js line 82: lifts the
        listener limit of each used standard stream, in insertion order. */
    method RaiseListenerLimits()
      requires Valid()
      modifies this
      ensures Valid()
      ensures trace == old(trace) + ListenerActions(usedStandardStreams, StdStreamNames)
      ensures runAllOptions == old(runAllOptions) && usedStandardStreams == old(usedStandardStreams)
      ensures hookPrefix == old(hookPrefix) && hooks == old(hooks)
    {
      var raised: seq<Action> := [];
      for i := 0 to |StdStreamNames|
        invariant raised == ListenerActions(usedStandardStreams, StdStreamNames[..i])
      {
        var name := StdStreamNames[i];
        assert StdStreamNames[..i + 1][..i] == StdStreamNames[..i];
        if name in usedStandardStreams {
          raised := raised + [SetMaxListeners(name, 0)];
        }
      }
      assert StdStreamNames[..|StdStreamNames|] == StdStreamNames;
      trace := trace + raised;
    }

    /** `setupServerlessContext` (src/index.js lines 87-94): the snapshot is
        taken from `host`, the `serverless` object as it is at that moment. */
    method SetupServerlessContext(host: Host, tmpPath: string)
      requires Valid()
      modifies this
      ensures Valid()
      ensures trace == old(trace) + ContextSetupActions(host, tmpPath)
      ensures runAllOptions == old(runAllOptions) && usedStandardStreams == old(usedStandardStreams)
      ensures hookPrefix == old(hookPrefix) && hooks == old(hooks)
    {
      var context := CreateServerlessContext(host);
      trace := trace + [SetEnv(ContextVariable, tmpPath)];
      trace := trace + [WriteFile(tmpPath, context)];
      trace := trace + [RegisterExitHook(tmpPath)];
      assert trace == old(trace) + [SetEnv(ContextVariable, tmpPath), WriteFile(tmpPath, context), RegisterExitHook(tmpPath)];
    }

    /** `onHook` (src/index.js lines 112-115): one run of the script runner
        with the given name and the resolved run options. */
    method OnHook(scriptName: Option<string>)
      requires Valid()
      modifies this
      ensures Valid()
      ensures trace == old(trace) + [RunAll(scriptName, runAllOptions)]
      ensures runAllOptions == old(runAllOptions) && usedStandardStreams == old(usedStandardStreams)
      ensures hookPrefix == old(hookPrefix) && hooks == old(hooks)
    {
      trace := trace + [RunAll(scriptName, runAllOptions)];
    }

    /** The host calling `this.hooks[event]()` in the state `host`: the bound
        handler runs with the script name and synthetic flag `getHookRunner`
        bound; an event without a binding does nothing. */
    method Fire(host: Host, event: string, tmpPath: string) returns (bound: bool)
      requires Valid()
      modifies this
      ensures Valid()
      ensures bound == (event in hooks)
      ensures !bound ==> trace == old(trace)
      ensures bound && hooks[event].OnHook? ==>
        trace == old(trace) + [RunAll(Some(hooks[event].scriptName), runAllOptions)]
      ensures bound && hooks[event].OnInitialize? ==>
        trace == old(trace) + InitializeActions(host, tmpPath, usedStandardStreams, hooks[event].isSynthetic, runAllOptions)
      ensures runAllOptions == old(runAllOptions) && usedStandardStreams == old(usedStandardStreams)
      ensures hookPrefix == old(hookPrefix) && hooks == old(hooks)
    {
      bound := event in hooks;
      if !bound {
        return;
      }
      match hooks[event]
      case OnInitialize(name, isSynthetic) =>
        OnInitialize(host, name, isSynthetic, tmpPath);
      case OnHook(name) =>
        OnHook(Some(name));
    }
  }
}

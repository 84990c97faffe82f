# serverless-hooks, modelled in Dafny

`serverless-hooks` is a Serverless Framework plugin. It binds npm scripts
from the project's `package.json` to lifecycle events of the framework. A
script named `<prefix><event>` (default prefix `hook:`) becomes a handler
for `<event>`. Firing it runs the script through `npm-run-all` with the
configured run options.

The plugin is one class, `ServerlessHooks` in `src/index.js`. This project
models it:

- `Js` (js.dfy): JavaScript values as a closed datatype, and the
  truthiness that the plugin's `||`, `&&` and `!` test.
- `Prefix` (prefix.dfy): normalising the hook prefix, modelled on lodash
  `trimEnd`.
- `Streams` (streams.dfy): the default run options, lodash `merge` with the
  user's `runAllOptions`, and how a value resolves into a stream handle. A
  string or object opens a file stream. Any other truthy value selects the
  process's own stream. A falsy value gives `null`.
- `Scripts` (scripts.dfy):
  - The script map: `{ 'hook:initialize': null }` spread with the package's
    scripts, or `{}` when `package.json` cannot be read.
  - JavaScript objects, modelled as ordered key/value sequences, with
    property assignment and object spread.
  - The `toPairs`/`filter`/`map`/`fromPairs` chain that builds the bindings.
- `Context` (context.dfy): the snapshot of the host written for spawned
  scripts. Its `service` field is allow-listed and truthy-filtered.
- `Hooks` (hooks.dfy): the `ServerlessHooks` class.
  - Its fields are the prefix, the run options (a map rewritten in place by
    the constructor's loop), the set of used standard streams and the
    bindings.
  - Handler effects are recorded in a trace of actions: setting
    `SLS_CONTEXT`, writing the context file, registering its removal at
    exit, lifting listener limits, and running the script runner.

Some things the code does that one might not expect, all modelled as written:

- The synthetic entry is the literal key `hook:initialize` whatever prefix is
  configured.
- Since every normalised prefix ends in `:`, only `hook:` matches that key:
  under any other prefix the synthetic entry binds nothing.
- When `package.json` cannot be read there are no bindings at all, not even
  `initialize`.
- The `initialize` handler calls `onHook()` with no argument, so its run has an
  undefined script name (`RunAll(None, …)`), not `hook:initialize`.
- `SLS_CONTEXT` is set before the context file is written.
- A stream field set to a non-empty string or an object opens a file even for
  `stdin`, in read mode. A false, `0` or empty-string field becomes `null`.

Effects are not performed. They appear as values of the `Action` datatype,
appended to the object's `trace` field in the order the source performs
them.

## Model

| member | source | states |
|---|---|---|
| Prefix.TrimEnd | src/index.js:16 | lodash `trimEnd`: the result is a prefix of the input that does not end in the character, and only that character follows it |
| Prefix.TrimEndUnique | src/index.js:16 | any split into a part not ending in the character and a run of that character is the one `TrimEnd` returns |
| Prefix.NormalizePrefix | src/index.js:16 | the prefix ends in exactly one `:`; an absent or empty configuration gives `hook:`; otherwise it is the configured text with its trailing colons replaced by one |
| Prefix.NormalizeIdempotent | src/index.js:16 | normalising an already normalised prefix changes nothing |
| Prefix.NormalizeNormalized | src/index.js:16 | a prefix ending in exactly one `:` is left as it is |
| Streams.Defaults | src/index.js:17 | the defaults set exactly `stdin`, `stdout` and `stderr`; `stdin` is falsy and the other two are truthy |
| Streams.Merge | src/index.js:17 | lodash `merge` on top-level keys: keys are the union; a defined source value overrides; an undefined source value keeps the destination's |
| Streams.MergedRunOptions | src/index.js:17 | the three stream fields are always present; an unset or undefined field keeps its default; every defined user field overrides; no user options give the defaults |
| Streams.ConfiguredValue | src/index.js:24 | the stored value or `null`: a truthy stored value is the result, a truthy result is the stored value, and every falsy result is `null` |
| Streams.CreateStream | src/index.js:36-40 | writable exactly when asked; the options object is exactly `{ name: value }` for a string and the object itself otherwise |
| Streams.ResolveStream | src/index.js:24-28 | falsy gives `null`; a string or object opens a file, for writing exactly when the field is not `stdin`; another truthy value gives the process's own stream of that name |
| Streams.ResolvedRunOptions | src/index.js:17-18 | after the loop, each stream field holds its resolved handle and every other field is passed through unchanged |
| Streams.UsedStandardStreams | src/index.js:14-18 | the used set is within the three stream names and holds exactly the fields resolved to the process's own stream |
| Streams.UnsetStreamDefaults | src/index.js:17-28 | an unset `stdin` becomes `null`; unset `stdout` and `stderr` inherit the process's streams; other defined user fields reach the runner unchanged |
| Streams.ResolvedFieldsUntouched | src/index.js:18 | a field keeps its merged value until the loop reaches it |
| Streams.ResolveFromConfigured | src/index.js:24-28 | resolving the stored value gives the same handle as resolving the merged value |
| Streams.ResolvedFieldsComplete | src/index.js:18 | resolving a prefix of the stream names in turn resolves exactly those fields, and hands out exactly the streams among them that resolve to standard streams |
| Scripts.Assign | src/index.js:62-66 | property assignment: the key gets the value, other lookups are unchanged, an existing key keeps its position, a new key is appended |
| Scripts.AssignDistinct | src/index.js:62-66 | assignment never duplicates a key |
| Scripts.Spread | src/index.js:62-66 | object spread: the keys are the union and the base keys keep their positions |
| Scripts.SpreadLookup | src/index.js:62-66 | after a spread a key holds the overriding object's value, or else the base's |
| Scripts.NodeScripts | src/index.js:58-70 | a failed read gives `{}`; otherwise `hook:initialize` comes first and the keys are that key and the package's |
| Scripts.NodeScriptsLookup | src/index.js:62-66 | a package script's value wins; otherwise `hook:initialize` is `null` |
| Scripts.HookRunner | src/index.js:72-78 | the event name is the key less its prefix; the handler is `onInitialize` exactly for `initialize` and keeps the key and the synthetic flag |
| Scripts.MatchingKeys | src/index.js:52 | exactly the keys that start with the prefix, without repeats for distinct keys |
| Scripts.HookPairsOfMatchingKeys | src/index.js:50-53 | the `toPairs`/`filter`/`map` chain (`HookPairs`) gives one pair per matching key, in order, named by the key less the prefix and bound to that key |
| Scripts.FromPairs | src/index.js:54 | the object's keys are the pairs' keys, and each key holds the value of its last pair |
| Scripts.BuildHooks | src/index.js:48-56 | every binding is named after a script key that starts with the prefix |
| Scripts.BuildHooksUnfold | src/index.js:50-55 | the first key's binding is overridden by the bindings of the remaining keys |
| Scripts.BindingAt | src/index.js:48-56 | an event is bound exactly when prefix + event is a script key; for distinct keys its handler is the one `getHookRunner` makes from that key and `!value` |
| Scripts.BindingCount | src/index.js:50-55 | distinct keys give as many bindings as there are matching keys |
| Scripts.BindingsOfMatchingKeys | src/index.js:48-56 | every prefixed key yields the binding named by its stripped key; every binding comes from a prefixed key; the number of bindings equals the number of matching keys |
| Scripts.InitializeBinding | src/index.js:58-78 | no package means no bindings; `initialize` is bound exactly when prefix + `initialize` is the synthetic key or a package key, to `onInitialize` with that key's falsiness |
| Scripts.DefaultPrefixInitialize | src/index.js:63-77 | with `hook:` and a package, `initialize` is always bound to `hook:initialize`, synthetic unless the package gives it a non-empty command |
| Scripts.SyntheticKeyNeedsDefaultPrefix | src/index.js:52-63 | a prefix ending in `:` matches `hook:initialize` exactly when it is `hook:` |
| Scripts.OnlySyntheticBinding | src/index.js:58-78 | with `hook:` and no prefixed package script, the only binding is a synthetic `initialize` |
| Scripts.OnlyInitializeBound | src/index.js:58-78 | with `hook:` and no prefixed package script, no event other than `initialize` is bound |
| Scripts.StripSynthetic | src/index.js:63-75 | the only event whose `hook:` key is `hook:initialize` is `initialize` |
| Context.Pick | src/index.js:104-106 | lodash `pick`: exactly the named fields present, with their values |
| Context.PickTruthy | src/index.js:107 | lodash `pickBy()`: exactly the truthy fields, with their values |
| Context.FilterService | src/index.js:104-108 | a field is kept exactly when it is allow-listed and truthy, with its value; at most thirteen fields remain |
| Context.AllowListBound | src/index.js:105-106 | a set of allow-listed names has at most thirteen elements |
| Context.CreateServerlessContext | src/index.js:96-110 | the snapshot copies the invocation id, version, CLI commands and options and service path, and its service holds exactly the allow-listed truthy fields with their values |
| Hooks.ContextSetupActions | src/index.js:87-94 | three actions in order: set `SLS_CONTEXT` to the path, write the context snapshot there, register its removal; no run |
| Hooks.ListenerActionsSpec | src/index.js:82 | for `ListenerActions`: each used standard stream gets `setMaxListeners(0)`, no other stream is touched, nothing runs |
| Hooks.ListenerActionsOnce | src/index.js:82 | for `ListenerActions` over distinct names: every action lifts the limit of one of the names, and no action is repeated |
| Hooks.InitializeActionsSpec | src/index.js:80-85 | for `InitializeActions`: the three context setup actions come first, and the run with an undefined name comes last unless the binding is synthetic |
| Hooks.InitializeRuns | src/index.js:80-85 | for `InitializeActions`: exactly one run, with an undefined name, or none when synthetic |
| Hooks.InitializeListeners | src/index.js:80-85 | for `InitializeActions`: after setup, each used standard stream has its limit lifted, every action is such a lift or the run, and none repeats |
| Hooks.ResolutionInvariant | src/index.js:14-18 | the resolved options and the used set satisfy the stream invariant |
| Hooks.ServerlessHooks.constructor | src/index.js:9-21 | the plugin name is `serverless-hooks`; the prefix is normalised; the options are merged and resolved; the used set is as resolved; the bindings are built from the script map; the invariant holds; nothing has happened |
| Hooks.ServerlessHooks.SetupStreams | src/index.js:18 | the loop over `stdin`, `stdout`, `stderr` leaves the resolved options and the used set, and establishes the invariant |
| Hooks.ServerlessHooks.SetupStream | src/index.js:23-29 | only the named field is rewritten, to its resolved handle; the name is recorded exactly when that handle is a standard stream |
| Hooks.ServerlessHooks.AllocateStdStream | src/index.js:31-34 | returns the process stream of that name and adds the name to the used set |
| Hooks.ServerlessHooks.OnInitialize | src/index.js:80-85 | appends exactly the initialize actions for the host as it is when the handler runs and the current options and used set; keeps the invariant; changes nothing else |
| Hooks.ServerlessHooks.RaiseListenerLimits | src/index.js:82 | appends the listener actions for the used set in insertion order |
| Hooks.ServerlessHooks.SetupServerlessContext | src/index.js:87-94 | appends the three context setup actions, with the snapshot of the host as it is at that moment; keeps the invariant |
| Hooks.ServerlessHooks.OnHook | src/index.js:112-115 | appends exactly one run, of that name with the current run options |
| Hooks.ServerlessHooks.Fire | src/index.js:76-77 | an unbound event does nothing; `onHook` bindings run their key; `onInitialize` bindings perform the initialize actions with their flag, for the host as it is when the event fires; keeps the invariant |

## Left out

- Opening files (`fs.createWriteStream`, `fs.createReadStream`), writing the context file and unlinking it are file I/O. They appear only as stream handles and trace actions.
- `tmp.tmpName()` is an OS facility, so the temporary path is a parameter. The `async-exit-hook` registration is recorded as an action and never runs.
- Running `npm-run-all` spawns child processes. A run is recorded as an action carrying its script name and options. Its glob and sequencing rules are not modelled.
- `require(packageJsonPath)` is not modelled. The scripts are an input: `None` when the require throws, `Some(entries)` with distinct keys otherwise.
- `serverless.service.custom['serverless-hooks']` is taken as a `PluginConfig` input.
- `JSON.stringify` is not modelled: the trace carries the context value itself. The assignment to `process.env` is the `SetEnv` action.
- `debug` and its `SLS_DEBUG` / `serverless.cli.log` output are host logging with no effect on behaviour.
- What `setMaxListeners` actually does is EventEmitter behaviour, so it is not modelled. `async`/`await` scheduling is not modelled: each handler's effects are taken to happen in sequence.
- Stream-open failures are not modelled. A file stream is always obtained.
- JavaScript key-order quirks are not modelled: integer-like keys enumerating first.
- Deep merging of nested option objects is not modelled. The merge is a per-key override.
- Numbers are integers: NaN and fractions do not occur.
- A non-string `hookPrefix` is not modelled. Template-string coercion of one is not covered.
- The order in which the used-stream set is iterated is its insertion order, which is the order of `stdin`, `stdout`, `stderr`.
- `this.serverless` and `this.options` are not kept as fields. The host fields that the context snapshot reads are passed to `Fire`, `OnInitialize` and `SetupServerlessContext` as they are when the event fires.
- OnInitialize, SetupServerlessContext: a rejected `tmp.tmpName()` or `fs.promises.writeFile` is not modelled. Both are taken to succeed, so the trace always holds every action. In the source a failed `writeFile` leaves `SLS_CONTEXT` pointing at a missing file and stops the handler before the exit hook, the listener limits and the run.
- Scripts.BindingAt: the handler stated for an event is that of the first matching key. Only for distinct keys does this match the last-wins `fromPairs`, so the handler clause requires distinct keys, as any parsed `package.json` object has.

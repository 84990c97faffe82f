/** The project's `package.json` scripts as an ordered object (key/value
    pairs in insertion order), the script map the plugin builds from them,
    and the hook bindings it derives. */
module Scripts {
  import opened Js

  /** A script's value: a command line, or `null`. */
  type ScriptValue = Option<string>

  /** An ordered JavaScript object: its keys with their values, in order. */
  type Entries<V> = seq<(string, V)>

  /** The key `getNodeScripts` always puts first, whatever prefix is configured. */
  const SyntheticKey: string := "hook:initialize"

  /** The event name that gets the initialize handler. */
  const InitializeEvent: string := "initialize"

  predicate DistinctKeys<V>(e: Entries<V>) {
    forall i, j :: 0 <= i < j < |e| ==> e[i].0 != e[j].0
  }

  function Keys<V>(e: Entries<V>): (ks: set<string>)
    ensures forall i :: 0 <= i < |e| ==> e[i].0 in ks
  {
    if e == [] then {} else {e[0].0} + Keys(e[1..])
  }

  /** The value stored under `k`, if any (the first occurrence; keys of an
      object are distinct). */
  function Lookup<V>(e: Entries<V>, k: string): (r: Option<V>)
    ensures r.Some? <==> k in Keys(e)
    ensures r.Some? ==> exists i :: 0 <= i < |e| && e[i] == (k, r.value)
  {
    if e == [] then None
    else if e[0].0 == k then Some(e[0].1)
    else
      var r := Lookup(e[1..], k);
      assert r.Some? ==> exists i :: 0 <= i < |e[1..]| && e[1..][i] == (k, r.value);
      r
  }

  lemma {:induction false} KeysDistinctTail<V>(e: Entries<V>)
    requires e != [] && DistinctKeys(e)
    ensures DistinctKeys(e[1..]) && e[0].0 !in Keys(e[1..])
  {
    KeysIndex(e[1..], e[0].0);
    assert forall i :: 0 <= i < |e[1..]| ==> e[1..][i].0 == e[i + 1].0;
  }

  /** A key is in `Keys(e)` exactly when it sits at some index of `e`. */
  lemma {:induction false} KeysIndex<V>(e: Entries<V>, k: string)
    ensures k in Keys(e) <==> exists i :: 0 <= i < |e| && e[i].0 == k
  {
    if e != [] && e[0].0 != k {
      KeysIndex(e[1..], k);
      if k in Keys(e) {
        var i :| 0 <= i < |e[1..]| && e[1..][i].0 == k;
        assert e[i + 1].0 == k;
      }
    }
  }

  /** Property assignment `obj[k] = v`: an existing key keeps its position and
      takes the new value, a new key is appended. */
  function Assign<V>(e: Entries<V>, k: string, v: V): (r: Entries<V>)
    ensures Keys(r) == Keys(e) + {k}
    ensures Lookup(r, k) == Some(v)
    ensures forall k' :: k' != k ==> Lookup(r, k') == Lookup(e, k')
    ensures k !in Keys(e) ==> r == e + [(k, v)]
    ensures k in Keys(e) ==> |r| == |e|
    ensures |e| <= |r| && forall i :: 0 <= i < |e| ==> r[i].0 == e[i].0
  {
    if e == [] then
      assert Keys([(k, v)]) == {k} + Keys([(k, v)][1..]);
      [(k, v)]
    else if e[0].0 == k then
      var r := [(k, v)] + e[1..];
      assert r[1..] == e[1..];
      r
    else
      var tail := Assign(e[1..], k, v);
      var r := [e[0]] + tail;
      assert r[1..] == tail;
      assert k !in Keys(e) ==> r == e + [(k, v)];
      r
  }

  /** Assigning a key never duplicates one. */
  lemma {:induction false} AssignDistinct<V>(e: Entries<V>, k: string, v: V)
    requires DistinctKeys(e)
    ensures DistinctKeys(Assign(e, k, v))
  {
    var r := Assign(e, k, v);
    if e != [] && e[0].0 == k {
      forall i, j | 0 <= i < j < |r| ensures r[i].0 != r[j].0 {
        assert r[i].0 == e[i].0 && r[j].0 == e[j].0;
      }
    } else if e != [] {
      KeysDistinctTail(e);
      AssignDistinct(e[1..], k, v);
      var tail := Assign(e[1..], k, v);
      assert r == [e[0]] + tail;
      forall i, j | 0 <= i < j < |r| ensures r[i].0 != r[j].0 {
        if i == 0 {
          assert r[j].0 == tail[j - 1].0 && tail[j - 1].0 in Keys(tail);
        } else {
          assert r[i].0 == tail[i - 1].0 && r[j].0 == tail[j - 1].0;
        }
      }
    }
  }

  /** Object spread `{ ...base, ...over }`: the pairs of `over` assigned to a
      copy of `base`, in order. The keys of `base` keep their positions. */
  function Spread<V>(base: Entries<V>, over: Entries<V>): (r: Entries<V>)
    ensures Keys(r) == Keys(base) + Keys(over)
    ensures |base| <= |r| && forall i :: 0 <= i < |base| ==> r[i].0 == base[i].0
    ensures DistinctKeys(base) ==> DistinctKeys(r)
    decreases |over|
  {
    if over == [] then base
    else
      assert DistinctKeys(base) ==> DistinctKeys(Assign(base, over[0].0, over[0].1)) by {
        if DistinctKeys(base) { AssignDistinct(base, over[0].0, over[0].1); }
      }
      Spread(Assign(base, over[0].0, over[0].1), over[1..])
  }

  /** After a spread, a key holds the value `over` gives it, and otherwise
      the value it had in `base`. */
  lemma {:induction false} SpreadLookup<V>(base: Entries<V>, over: Entries<V>, k: string)
    requires DistinctKeys(over)
    ensures Lookup(Spread(base, over), k) == if k in Keys(over) then Lookup(over, k) else Lookup(base, k)
    decreases |over|
  {
    if over != [] {
      KeysDistinctTail(over);
      SpreadLookup(Assign(base, over[0].0, over[0].1), over[1..], k);
    }
  }

  /** `getNodeScripts` (src/index.js lines 58-70). `pkg` is `None` when
      requiring `package.json` throws, and `Some([])` when it loads without a
      `scripts` field. */
  function NodeScripts(pkg: Option<Entries<ScriptValue>>): (r: Entries<ScriptValue>)
    ensures pkg.None? ==> r == []
    ensures pkg.Some? ==> |r| >= 1 && r[0].0 == SyntheticKey
    ensures pkg.Some? ==> Keys(r) == {SyntheticKey} + Keys(pkg.value)
    ensures pkg.Some? && DistinctKeys(pkg.value) ==> DistinctKeys(r)
  {
    match pkg
    case None => []
    case Some(scripts) =>
      var base: Entries<ScriptValue> := [(SyntheticKey, None)];
      assert Keys(base) == {SyntheticKey} + Keys(base[1..]);
      Spread(base, scripts)
  }

  /** The script map is `{ 'hook:initialize': null }` overridden by the
      package's scripts: a real `hook:initialize` replaces the `null`, every
      other key holds the package's value. */
  lemma NodeScriptsLookup(scripts: Entries<ScriptValue>, k: string)
    requires DistinctKeys(scripts)
    ensures Lookup(NodeScripts(Some(scripts)), k) ==
              if k in Keys(scripts) then Lookup(scripts, k)
              else if k == SyntheticKey then Some(None)
              else None
  {
    var base: Entries<ScriptValue> := [(SyntheticKey, None)];
    SpreadLookup(base, scripts, k);
  }

  /** The handler a binding holds: `onInitialize` or `onHook`, bound to the
      script name and the synthetic flag (`onHook` ignores the flag). */
  datatype Handler =
    | OnInitialize(scriptName: string, isSynthetic: bool)
    | OnHook(scriptName: string)

  /** `!v` for a script value: `null` and the empty command are falsy. */
  predicate IsSynthetic(v: ScriptValue) {
    v.None? || v.value == ""
  }

  /** `getHookRunner` (src/index.js lines 72-78), called only on keys that
      start with the prefix. */
  function HookRunner(prefix: string, scriptName: string, isSynthetic: bool): (b: (string, Handler))
    requires prefix <= scriptName
    ensures prefix + b.0 == scriptName
    ensures b.1.scriptName == scriptName
    ensures b.1.OnInitialize? <==> b.0 == InitializeEvent
    ensures b.1.OnInitialize? ==> b.1.isSynthetic == isSynthetic
  {
    var hook := scriptName[|prefix|..];
    assert prefix + hook == scriptName;
    (hook, if hook == InitializeEvent then OnInitialize(scriptName, isSynthetic) else OnHook(scriptName))
  }

  /** The keys starting with `prefix`, in order (the `filter` step). */
  function MatchingKeys(scripts: Entries<ScriptValue>, prefix: string): (ks: seq<string>)
    ensures forall k :: k in ks <==> k in Keys(scripts) && prefix <= k
    ensures DistinctKeys(scripts) ==> forall i, j :: 0 <= i < j < |ks| ==> ks[i] != ks[j]
  {
    if scripts == [] then []
    else
      var k := scripts[0].0;
      assert DistinctKeys(scripts) ==> DistinctKeys(scripts[1..]) && k !in Keys(scripts[1..]) by {
        if DistinctKeys(scripts) { KeysDistinctTail(scripts); }
      }
      (if prefix <= k then [k] else []) + MatchingKeys(scripts[1..], prefix)
  }

  /** The `toPairs`/`filter`/`map` chain of `buildHooksObject`
      (src/index.js lines 50-53). */
  function HookPairs(scripts: Entries<ScriptValue>, prefix: string): Entries<Handler> {
    if scripts == [] then []
    else
      var (k, v) := scripts[0];
      (if prefix <= k then [HookRunner(prefix, k, IsSynthetic(v))] else []) + HookPairs(scripts[1..], prefix)
  }

  /** There is one pair per key with the prefix, in order, named by the key
      without its prefix and bound to that key. */
  lemma {:induction false} HookPairsOfMatchingKeys(scripts: Entries<ScriptValue>, prefix: string)
    ensures var hs := HookPairs(scripts, prefix);
      && |hs| == |MatchingKeys(scripts, prefix)|
      && forall i :: 0 <= i < |hs| ==>
           && prefix + hs[i].0 == MatchingKeys(scripts, prefix)[i]
           && hs[i].1.scriptName == MatchingKeys(scripts, prefix)[i]
  {
    if scripts != [] {
      var (k, v) := scripts[0];
      HookPairsOfMatchingKeys(scripts[1..], prefix);
      var rest := HookPairs(scripts[1..], prefix);
      var ks := MatchingKeys(scripts[1..], prefix);
      if prefix <= k {
        var hs := [HookRunner(prefix, k, IsSynthetic(v))] + rest;
        assert HookPairs(scripts, prefix) == hs;
        assert MatchingKeys(scripts, prefix) == [k] + ks;
        assert forall i :: 0 < i < |hs| ==> hs[i] == rest[i - 1] && ([k] + ks)[i] == ks[i - 1];
      } else {
        assert HookPairs(scripts, prefix) == rest;
        assert MatchingKeys(scripts, prefix) == ks;
      }
    }
  }

  /** lodash `fromPairs`: an object built by assigning the pairs in order, so
      the last pair with a given key wins. */
  function FromPairs<V>(pairs: Entries<V>): (m: map<string, V>)
    ensures m.Keys == Keys(pairs)
    ensures forall i :: 0 <= i < |pairs| && pairs[i].0 !in Keys(pairs[i + 1..]) ==> m[pairs[i].0] == pairs[i].1
  {
    if pairs == [] then map[]
    else
      var rest := FromPairs(pairs[1..]);
      assert forall i :: 0 < i < |pairs| ==> pairs[i] == pairs[1..][i - 1] && pairs[i + 1..] == pairs[1..][i..];
      map[pairs[0].0 := pairs[0].1] + rest
  }

  /** `buildHooksObject` (src/index.js lines 48-56): every binding is named
      after a script key with the prefix. */
  function BuildHooks(scripts: Entries<ScriptValue>, prefix: string): (hooks: map<string, Handler>)
    ensures forall e :: e in hooks ==> prefix + e in Keys(scripts)
  {
    var hs := HookPairs(scripts, prefix);
    assert forall e :: e in Keys(hs) ==> prefix + e in Keys(scripts) by {
      HookPairsOfMatchingKeys(scripts, prefix);
      forall e | e in Keys(hs) ensures prefix + e in Keys(scripts) {
        KeysIndex(hs, e);
        var i :| 0 <= i < |hs| && hs[i].0 == e;
        assert MatchingKeys(scripts, prefix)[i] in MatchingKeys(scripts, prefix);
      }
    }
    FromPairs(hs)
  }

  /** The bindings of a script map are those of its first key, overridden by
      those of the remaining keys. */
  lemma BuildHooksUnfold(scripts: Entries<ScriptValue>, prefix: string)
    requires scripts != []
    ensures BuildHooks(scripts, prefix) ==
      (if prefix <= scripts[0].0
       then map[scripts[0].0[|prefix|..] := HookRunner(prefix, scripts[0].0, IsSynthetic(scripts[0].1)).1]
       else map[])
      + BuildHooks(scripts[1..], prefix)
  {
    var rest := HookPairs(scripts[1..], prefix);
    if prefix <= scripts[0].0 {
      var b := HookRunner(prefix, scripts[0].0, IsSynthetic(scripts[0].1));
      assert HookPairs(scripts, prefix) == [b] + rest;
      assert ([b] + rest)[1..] == rest;
    } else {
      assert HookPairs(scripts, prefix) == rest;
      assert map[] + FromPairs(rest) == FromPairs(rest);
    }
  }

  /** An event is bound exactly when the prefix followed by the event name is
      a key of the script map, and then it holds the handler `getHookRunner`
      makes for that key and its value. */
  lemma {:induction false} BindingAt(scripts: Entries<ScriptValue>, prefix: string, event: string)
    ensures prefix <= prefix + event
    ensures event in BuildHooks(scripts, prefix) <==> prefix + event in Keys(scripts)
    ensures DistinctKeys(scripts) && event in BuildHooks(scripts, prefix) ==>
      BuildHooks(scripts, prefix)[event] == HookRunner(prefix, prefix + event, IsSynthetic(Lookup(scripts, prefix + event).value)).1
  {
    var key := prefix + event;
    assert key[|prefix|..] == event;
    if scripts != [] {
      var (k, v) := scripts[0];
      BuildHooksUnfold(scripts, prefix);
      BindingAt(scripts[1..], prefix, event);
      if prefix <= k {
        assert k == prefix + k[|prefix|..];
        assert k[|prefix|..] == event <==> k == key;
      }
      assert DistinctKeys(scripts) ==> DistinctKeys(scripts[1..]) && k !in Keys(scripts[1..]) by {
        if DistinctKeys(scripts) { KeysDistinctTail(scripts); }
      }
    }
  }

  /** Distinct keys give as many bindings as there are keys with the prefix:
      stripping a common prefix never makes two keys collide. */
  lemma {:induction false} BindingCount(scripts: Entries<ScriptValue>, prefix: string)
    requires DistinctKeys(scripts)
    ensures |BuildHooks(scripts, prefix)| == |MatchingKeys(scripts, prefix)|
  {
    if scripts != [] {
      var k := scripts[0].0;
      KeysDistinctTail(scripts);
      BuildHooksUnfold(scripts, prefix);
      BindingCount(scripts[1..], prefix);
      if prefix <= k {
        var e := k[|prefix|..];
        assert prefix + e == k;
        BindingAt(scripts[1..], prefix, e);
        assert e !in BuildHooks(scripts[1..], prefix);
      }
    }
  }

  /** Every key that starts with the prefix yields the binding whose name is
      the key without its prefix and whose handler is `getHookRunner`'s; no
      other binding exists; and there are exactly as many bindings as
      matching keys. */
  lemma BindingsOfMatchingKeys(scripts: Entries<ScriptValue>, prefix: string)
    requires DistinctKeys(scripts)
    ensures forall k :: k in Keys(scripts) && prefix <= k ==>
              && k[|prefix|..] in BuildHooks(scripts, prefix)
              && BuildHooks(scripts, prefix)[k[|prefix|..]] == HookRunner(prefix, k, IsSynthetic(Lookup(scripts, k).value)).1
    ensures forall e :: e in BuildHooks(scripts, prefix) ==> prefix + e in Keys(scripts)
    ensures |BuildHooks(scripts, prefix)| == |MatchingKeys(scripts, prefix)|
  {
    forall k | k in Keys(scripts) && prefix <= k
      ensures k[|prefix|..] in BuildHooks(scripts, prefix)
      ensures BuildHooks(scripts, prefix)[k[|prefix|..]] == HookRunner(prefix, k, IsSynthetic(Lookup(scripts, k).value)).1
    {
      assert prefix + k[|prefix|..] == k;
      BindingAt(scripts, prefix, k[|prefix|..]);
    }
    forall e | e in BuildHooks(scripts, prefix) ensures prefix + e in Keys(scripts) {
      BindingAt(scripts, prefix, e);
    }
    BindingCount(scripts, prefix);
  }

  /** The `initialize` binding. A failed `package.json` read leaves no binding
      at all. Otherwise `initialize` is bound exactly when `prefix + "initialize"`
      is a key of the script map, which is the synthetic key itself or a key
      of the package; its flag says whether that key's value is falsy. */
  lemma InitializeBinding(pkg: Option<Entries<ScriptValue>>, prefix: string)
    requires pkg.Some? ==> DistinctKeys(pkg.value)
    ensures pkg.None? ==> BuildHooks(NodeScripts(pkg), prefix) == map[]
    ensures var hooks := BuildHooks(NodeScripts(pkg), prefix);
      InitializeEvent in hooks <==>
        pkg.Some? && (prefix + InitializeEvent == SyntheticKey || prefix + InitializeEvent in Keys(pkg.value))
    ensures var key := prefix + InitializeEvent;
      var hooks := BuildHooks(NodeScripts(pkg), prefix);
      InitializeEvent in hooks ==>
        hooks[InitializeEvent] == OnInitialize(key, IsSynthetic(Lookup(NodeScripts(pkg), key).value))
  {
    BindingAt(NodeScripts(pkg), prefix, InitializeEvent);
  }

  /** With the default prefix `hook:` and a loaded package, `initialize` is
      always bound, to `hook:initialize`; it is synthetic unless the package
      defines that script with a non-empty command. */
  lemma DefaultPrefixInitialize(scripts: Entries<ScriptValue>)
    requires DistinctKeys(scripts)
    ensures var hooks := BuildHooks(NodeScripts(Some(scripts)), "hook:");
      && InitializeEvent in hooks
      && hooks[InitializeEvent] == OnInitialize(SyntheticKey,
           SyntheticKey !in Keys(scripts) || IsSynthetic(Lookup(scripts, SyntheticKey).value))
  {
    assert "hook:" + InitializeEvent == SyntheticKey;
    BindingAt(NodeScripts(Some(scripts)), "hook:", InitializeEvent);
    NodeScriptsLookup(scripts, SyntheticKey);
  }

  /** A prefix ending in `:` matches the synthetic key only when it is
      `hook:`, so under any other prefix the synthetic entry binds nothing. */
  lemma SyntheticKeyNeedsDefaultPrefix(prefix: string)
    requires |prefix| >= 1 && prefix[|prefix| - 1] == ':'
    ensures prefix <= SyntheticKey <==> prefix == "hook:"
  {
    if prefix <= SyntheticKey {
      var m := |prefix| - 1;
      assert SyntheticKey[m] == ':';
      assert m == 4;
      assert prefix == SyntheticKey[..5];
    }
  }

  /** With the prefix `hook:` and no package script under it, the only
      binding is the synthetic `initialize`. */
  lemma OnlySyntheticBinding(scripts: Entries<ScriptValue>)
    requires DistinctKeys(scripts)
    requires forall k :: k in Keys(scripts) ==> !("hook:" <= k)
    ensures BuildHooks(NodeScripts(Some(scripts)), "hook:") == map[InitializeEvent := OnInitialize(SyntheticKey, true)]
  {
    var hooks := BuildHooks(NodeScripts(Some(scripts)), "hook:");
    OnlyInitializeBound(scripts);
    assert "hook:" <= SyntheticKey;
    assert SyntheticKey !in Keys(scripts);
    NodeScriptsLookup(scripts, SyntheticKey);
    BindingAt(NodeScripts(Some(scripts)), "hook:", InitializeEvent);
  }

  lemma OnlyInitializeBound(scripts: Entries<ScriptValue>)
    requires forall k :: k in Keys(scripts) ==> !("hook:" <= k)
    ensures forall e :: e in BuildHooks(NodeScripts(Some(scripts)), "hook:") ==> e == InitializeEvent
  {
    forall e | e in BuildHooks(NodeScripts(Some(scripts)), "hook:") ensures e == InitializeEvent {
      var key := "hook:" + e;
      PrefixOfAppend("hook:", e);
      assert key !in Keys(scripts);
      assert key in {SyntheticKey} + Keys(scripts);
      StripSynthetic(e);
    }
  }

  /** The only event whose `hook:` key is the synthetic key is `initialize`. */
  lemma StripSynthetic(e: string)
    requires "hook:" + e == SyntheticKey
    ensures e == InitializeEvent
  {
    assert SyntheticKey == "hook:" + InitializeEvent;
    AppendCancel("hook:", e, InitializeEvent);
  }

  lemma PrefixOfAppend(p: string, e: string)
    ensures p <= p + e
  {
  }

  /** Removing a common prefix: equal concatenations have equal tails. */
  lemma AppendCancel(p: string, a: string, b: string)
    requires p + a == p + b
    ensures a == b
  {
    assert a == (p + a)[|p|..];
    assert b == (p + b)[|p|..];
  }
}

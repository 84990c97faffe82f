/** Run options of the script runner: the defaults merged with the user's
    `runAllOptions`, and the resolution of the three standard stream fields
    into stream handles. */
module Streams {
  import opened Js

  /** The stream fields, in the order the constructor resolves them. */
  const StdStreamNames: seq<string> := ["stdin", "stdout", "stderr"]

  /** What a stream field holds after resolution. A file stream records the
      options object handed to `fs.createWriteStream` / `fs.createReadStream`
      (whose `name` property is the path); `Std` is `process[name]`;
      `NoStream` is `null`. */
  datatype StreamHandle =
    | FileWrite(info: map<string, Value>)
    | FileRead(info: map<string, Value>)
    | Std(name: string)
    | NoStream

  /** A field of the run options: a configuration value passed through to the
      script runner, or a stream field after resolution. */
  datatype RunOption = Plain(v: Value) | Resolved(h: StreamHandle)

  /** `{ stdin: 0, stdout: 1, stderr: 1 }`. */
  function Defaults(): (d: map<string, Value>)
    ensures d.Keys == {"stdin", "stdout", "stderr"}
    ensures !Truthy(d["stdin"]) && Truthy(d["stdout"]) && Truthy(d["stderr"])
  {
    map["stdin" := Num(0), "stdout" := Num(1), "stderr" := Num(1)]
  }

  /** lodash `merge(dest, src)` on the top level: every key of `src`
      overrides, except that an `undefined` in `src` leaves an existing
      destination value in place. */
  function Merge(dest: map<string, Value>, src: map<string, Value>): (m: map<string, Value>)
    ensures m.Keys == dest.Keys + src.Keys
    ensures forall k :: k in src && src[k] != Undefined ==> m[k] == src[k]
    ensures forall k :: k in src && k !in dest ==> m[k] == src[k]
    ensures forall k :: k in dest && (k !in src || src[k] == Undefined) ==> m[k] == dest[k]
  {
    map k | k in dest.Keys + src.Keys ::
      if k in src && (src[k] != Undefined || k !in dest) then src[k] else dest[k]
  }

  /** The run options before resolution (src/index.js line 17); an absent
      `runAllOptions` merges nothing. */
  function MergedRunOptions(user: Option<map<string, Value>>): (m: map<string, Value>)
    ensures forall n :: n in StdStreamNames ==> n in m
    ensures forall n :: n in Defaults() && (user.None? || n !in user.value || user.value[n] == Undefined)
              ==> m[n] == Defaults()[n]
    ensures user.Some? ==> m.Keys == Defaults().Keys + user.value.Keys
    ensures user.Some? ==> forall k :: k in user.value && user.value[k] != Undefined ==> m[k] == user.value[k]
    ensures user.None? ==> m == Defaults()
  {
    Merge(Defaults(), user.GetOr(map[]))
  }

  /** The value `setupStream` finds for a field: `this.runAllOptions[stream] || null`.
      A field already resolved to a handle is not looked at by the source. */
  function ConfiguredValue(opts: map<string, RunOption>, name: string): (v: Value)
    ensures Truthy(v) ==> name in opts && opts[name] == Plain(v)
    ensures name in opts && opts[name].Plain? && Truthy(opts[name].v) ==> v == opts[name].v
    ensures !Truthy(v) ==> v == Null
  {
    if name in opts && opts[name].Plain? && Truthy(opts[name].v) then opts[name].v else Null
  }

  /** `createStream` (src/index.js lines 36-40): a string is turned into the
      options object `{ name: value }`; the stream is opened for writing or
      for reading. */
  function CreateStream(v: Value, isWritable: bool): (h: StreamHandle)
    requires IsStringOrObject(v)
    ensures h.FileWrite? <==> isWritable
    ensures h.FileWrite? || h.FileRead?
    ensures NameProperty(h.info) == if v.Str? then v else NameProperty(v.props)
    ensures v.Str? ==> h.info == map["name" := v]
    ensures v.Obj? ==> h.info == v.props
  {
    var info := if v.Str? then map["name" := v] else v.props;
    if isWritable then FileWrite(info) else FileRead(info)
  }

  /** `setupStream` / `createStream` for one field (src/index.js lines 24-28,
      36-39): a string or object opens a file, for writing unless the field is
      `stdin`; another truthy value selects the process's own stream; a falsy
      value gives `null`. */
  function ResolveStream(name: string, v: Value): (h: StreamHandle)
    ensures !Truthy(v) ==> h == NoStream
    ensures h.Std? <==> Truthy(v) && !IsStringOrObject(v)
    ensures h.Std? ==> h.name == name
    ensures h.FileWrite? <==> Truthy(v) && IsStringOrObject(v) && name != "stdin"
    ensures h.FileRead? <==> Truthy(v) && IsStringOrObject(v) && name == "stdin"
    ensures (h.FileWrite? || h.FileRead?) ==> NameProperty(h.info) == (if v.Str? then v else NameProperty(v.props))
  {
    if !Truthy(v) then NoStream
    else if IsStringOrObject(v) then CreateStream(v, name != "stdin")
    else Std(name)
  }

  /** The run options once the constructor's loop over the three stream
      fields is done: the stream fields resolved, every other field passed
      through unchanged. */
  function ResolvedRunOptions(merged: map<string, Value>): (r: map<string, RunOption>)
    requires forall n :: n in StdStreamNames ==> n in merged
    ensures r.Keys == merged.Keys
    ensures forall n :: n in StdStreamNames ==> r[n] == Resolved(ResolveStream(n, merged[n]))
    ensures forall k :: k in merged && k !in StdStreamNames ==> r[k] == Plain(merged[k])
  {
    map k | k in merged :: if k in StdStreamNames then Resolved(ResolveStream(k, merged[k])) else Plain(merged[k])
  }

  /** `usedStandardStreams` once the constructor is done: the stream fields
      that resolved to the process's own stream. */
  function UsedStandardStreams(merged: map<string, Value>): (used: set<string>)
    requires forall n :: n in StdStreamNames ==> n in merged
    ensures used <= {"stdin", "stdout", "stderr"}
    ensures forall n :: n in used <==> n in ResolvedRunOptions(merged) && ResolvedRunOptions(merged)[n] == Resolved(Std(n))
  {
    set n | n in StdStreamNames && ResolveStream(n, merged[n]).Std?
  }

  /** Fields the user leaves unset keep their default: `stdin` is suppressed
      and `stdout` and `stderr` inherit the process's streams; fields other
      than the three stream fields reach the script runner unchanged. */
  lemma UnsetStreamDefaults(user: Option<map<string, Value>>)
    ensures var r := ResolvedRunOptions(MergedRunOptions(user));
      && ((user.None? || "stdin" !in user.value || user.value["stdin"] == Undefined) ==> r["stdin"] == Resolved(NoStream))
      && ((user.None? || "stdout" !in user.value || user.value["stdout"] == Undefined) ==> r["stdout"] == Resolved(Std("stdout")))
      && ((user.None? || "stderr" !in user.value || user.value["stderr"] == Undefined) ==> r["stderr"] == Resolved(Std("stderr")))
      && (user.Some? ==> forall k :: k in user.value && k !in StdStreamNames && user.value[k] != Undefined ==> r[k] == Plain(user.value[k]))
  {
  }

  /** The run options before any stream field is resolved. */
  function Unresolved(merged: map<string, Value>): map<string, RunOption> {
    map k | k in merged :: Plain(merged[k])
  }

  /** The run options after the fields `names` have been resolved one after
      the other, each from the value it was merged to. */
  function ResolvedFields(merged: map<string, Value>, names: seq<string>): map<string, RunOption>
    requires forall n :: n in names ==> n in merged
  {
    if names == [] then Unresolved(merged)
    else
      var m := |names| - 1;
      ResolvedFields(merged, names[..m])[names[m] := Resolved(ResolveStream(names[m], merged[names[m]]))]
  }

  /** The standard streams handed out while resolving the fields `names`. */
  function UsedFields(merged: map<string, Value>, names: seq<string>): set<string>
    requires forall n :: n in names ==> n in merged
  {
    if names == [] then {}
    else
      var m := |names| - 1;
      UsedFields(merged, names[..m]) + (if ResolveStream(names[m], merged[names[m]]).Std? then {names[m]} else {})
  }

  /** A field keeps its merged value until it is resolved itself. */
  lemma {:induction false} ResolvedFieldsUntouched(merged: map<string, Value>, names: seq<string>, k: string)
    requires forall n :: n in names ==> n in merged
    requires k in merged && k !in names
    ensures k in ResolvedFields(merged, names) && ResolvedFields(merged, names)[k] == Plain(merged[k])
  {
    if names != [] {
      var m := |names| - 1;
      assert names[m] != k;
      ResolvedFieldsUntouched(merged, names[..m], k);
    }
  }

  /** Resolving a field reads the value it was merged to: `setupStream`'s
      `|| null` turns only a falsy value into `null`, and a falsy value
      resolves to `null` either way. */
  lemma ResolveFromConfigured(merged: map<string, Value>, opts: map<string, RunOption>, name: string)
    requires name in merged && name in opts && opts[name] == Plain(merged[name])
    ensures ResolveStream(name, ConfiguredValue(opts, name)) == ResolveStream(name, merged[name])
  {
  }

  /** Resolving the three stream fields in turn yields the resolved run
      options, and hands out exactly the used standard streams. */
  lemma {:induction false} ResolvedFieldsComplete(merged: map<string, Value>, names: seq<string>)
    requires forall n :: n in names ==> n in merged
    requires forall n :: n in StdStreamNames ==> n in merged
    requires names <= StdStreamNames
    ensures forall k :: k in merged ==>
      k in ResolvedFields(merged, names) &&
      ResolvedFields(merged, names)[k] == if k in names then Resolved(ResolveStream(k, merged[k])) else Plain(merged[k])
    ensures ResolvedFields(merged, names).Keys == merged.Keys
    ensures UsedFields(merged, names) == set n | n in names && ResolveStream(n, merged[n]).Std?
  {
    if names != [] {
      var m := |names| - 1;
      assert names[..m] <= StdStreamNames;
      ResolvedFieldsComplete(merged, names[..m]);
      assert forall n :: n in names <==> n in names[..m] || n == names[m];
    }
  }
}

/** The hook prefix: the configured `hookPrefix` (or `hook`) with every
    trailing `:` removed and exactly one `:` appended. */
module Prefix {
  import opened Js

  const DefaultPrefix: string := "hook"
  const Separator: char := ':'

  /** lodash `trimEnd(s, c)` for a single character `c`: the longest prefix of
      `s` that does not end in `c` and is followed only by copies of `c`. */
  function TrimEnd(s: string, c: char): (r: string)
    ensures |r| <= |s| && r == s[..|r|]
    ensures r == [] || r[|r| - 1] != c
    ensures forall i :: |r| <= i < |s| ==> s[i] == c
  {
    if |s| > 0 && s[|s| - 1] == c then TrimEnd(s[..|s| - 1], c) else s
  }

  /** The three facts above determine the trimmed string: any split of `s`
      into a part not ending in `c` and a run of `c` is the one TrimEnd finds. */
  lemma TrimEndUnique(s: string, c: char, t: string)
    requires |t| <= |s| && t == s[..|t|]
    requires t == [] || t[|t| - 1] != c
    requires forall i :: |t| <= i < |s| ==> s[i] == c
    ensures TrimEnd(s, c) == t
  {
  }

  /** The prefix of src/index.js line 16. A missing or empty `hookPrefix` is
      falsy, so `hook` is used in its place. */
  function NormalizePrefix(configured: Option<string>): (p: string)
    ensures |p| >= 1 && p[|p| - 1] == Separator
    ensures |p| >= 2 ==> p[|p| - 2] != Separator
    ensures configured == None || configured == Some("") ==> p == "hook:"
    ensures configured.Some? && configured.value != "" ==>
              |p| - 1 <= |configured.value|
              && p == configured.value[..|p| - 1] + [Separator]
              && forall i :: |p| - 1 <= i < |configured.value| ==> configured.value[i] == Separator
  {
    assert TrimEnd(DefaultPrefix, Separator) == DefaultPrefix;
    TrimEnd(PrefixBase(configured), Separator) + [Separator]
  }

  /** `this.config.hookPrefix || 'hook'`. */
  function PrefixBase(configured: Option<string>): string {
    if configured.None? || configured.value == "" then DefaultPrefix else configured.value
  }

  /** Normalising an already normalised prefix changes nothing. */
  lemma NormalizeIdempotent(configured: Option<string>)
    ensures NormalizePrefix(Some(NormalizePrefix(configured))) == NormalizePrefix(configured)
  {
    NormalizeNormalized(NormalizePrefix(configured));
  }

  /** A prefix ending in exactly one `:` is its own normal form. */
  lemma NormalizeNormalized(p: string)
    requires |p| >= 1 && p[|p| - 1] == Separator
    requires |p| >= 2 ==> p[|p| - 2] != Separator
    ensures NormalizePrefix(Some(p)) == p
  {
    var t := p[..|p| - 1];
    assert p == t + [Separator];
    TrimEndUnique(p, Separator, t);
    assert PrefixBase(Some(p)) == p;
  }
}

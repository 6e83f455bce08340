/** The router's path prefix: read from the application configuration once at
    load time, forced to start with `/`, and removed from each request path
    before resolution. */
module Prefix {
  import opened Base
  import opened Strings

  /** A prefix the router accepts: empty, or starting with `/`. */
  predicate WellFormed(p: string)
  {
    p == "" || p[0] == '/'
  }

  /** The configured `router.plugins.prefix` (absent means `''`), with a `/`
      put in front when it is non-empty and does not start with one. */
  function Normalise(setting: Option<string>): (p: string)
    ensures WellFormed(p)
    ensures setting.None? ==> p == ""
    ensures setting.Some? && WellFormed(setting.value) ==> p == setting.value
    ensures setting.Some? && !WellFormed(setting.value) ==> p == "/" + setting.value
  {
    var raw := if setting.Some? then setting.value else "";
    if raw != "" && raw[0] != '/' then "/" + raw else raw
  }

  /** Normalising an already normalised prefix changes nothing. */
  lemma NormaliseIdempotent(setting: Option<string>)
    ensures Normalise(Some(Normalise(setting))) == Normalise(setting)
  {
    var p := Normalise(setting);
    assert WellFormed(p);
  }

  /** `if (prefix) path = path.replace(prefix, '')`: an empty prefix leaves
      the path alone; otherwise the first occurrence of the prefix, wherever
      it is, is cut out. */
  function Strip(path: string, prefix: string): (r: string)
    ensures prefix == "" ==> r == path
  {
    if prefix != "" then ReplaceFirst(path, prefix, "") else path
  }

  /** A path in which the prefix does not occur is left alone. */
  lemma StripAbsent(path: string, prefix: string)
    requires forall i :: !OccursAt(path, prefix, i)
    ensures Strip(path, prefix) == path
  {
  }

  /** A non-empty prefix whose first occurrence starts at `i` is cut out
      there, and only there. */
  lemma StripFirst(path: string, prefix: string, i: int)
    requires prefix != "" && FirstOccurrence(path, prefix, i)
    ensures Strip(path, prefix) == path[..i] + path[i + |prefix|..]
    ensures |Strip(path, prefix)| == |path| - |prefix|
  {
  }

  /** A path that starts with the prefix, letter for letter, loses exactly
      that leading prefix. The route's own prefix match ignores case, so a
      path can also arrive without such a leading occurrence; then
      `StripFirst` applies. */
  lemma StripLeading(path: string, prefix: string)
    requires prefix != "" && prefix <= path
    ensures Strip(path, prefix) == path[|prefix|..]
  {
    assert path[..|prefix|] == prefix;
    assert FirstOccurrence(path, prefix, 0);
  }

  /** The removal is not anchored: a prefix that occurs only later in the
      path is cut out from the middle. */
  lemma StripUnanchored()
    ensures Strip("/x/api/y", "/api") == "/x/y"
  {
    var path, prefix := "/x/api/y", "/api";
    assert OccursAt(path, prefix, 2) by {
      assert path[2..6] == prefix;
    }
    assert !OccursAt(path, prefix, 0) by { assert path[1] != prefix[1]; }
    assert !OccursAt(path, prefix, 1) by { assert path[1] != prefix[0]; }
    assert FirstOccurrence(path, prefix, 2);
    assert path[..2] + path[6..] == "/x/y";
  }
}

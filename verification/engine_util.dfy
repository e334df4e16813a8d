/**
 * Small computations of `RythmEngine`: the composite key of the render cache, the engine
 * version fingerprint, the stripping of the `rythm.` prefix from configuration keys, and how
 * render arguments are handed to a template.
 */
module EngineUtil {
  import opened Wrappers
  import opened Strings
  import Tags

  /** `key + "-" + arg1 + "-" + arg2 ...`: the key under which `cache` stores and `cached` reads. */
  function CacheKey(key: string, args: seq<string>): (r: string)
    ensures StartsWith(r, key)
    ensures args == [] ==> r == key
  {
    if |args| == 0 then key
    else CacheKey(key, args[..|args| - 1]) + "-" + args[|args| - 1]
  }

  /** The `StringBuilder` loop of `cache` and `cached`; arguments enter by their string form. */
  method BuildCacheKey(key: string, args: seq<string>) returns (k: string)
    ensures k == CacheKey(key, args)
  {
    k := key;
    if |args| > 0 {
      var sb := key;
      var i := 0;
      while i < |args|
        invariant 0 <= i <= |args|
        invariant sb == CacheKey(key, args[..i])
      {
        sb := sb + "-" + args[i];
        assert args[..i + 1][..i] == args[..i];
        i := i + 1;
      }
      assert args[..|args|] == args;
      k := sb;
    }
  }

  /**
   * When neither the key nor any argument contains a dash, the composite key can be taken
   * apart again: splitting it at the dashes gives back the key followed by the arguments.
   */
  lemma {:induction false} CacheKeyDecodes(key: string, args: seq<string>)
    requires '-' !in key && forall i :: 0 <= i < |args| ==> '-' !in args[i]
    ensures Split(CacheKey(key, args), '-') == [key] + args
  {
    if |args| == 0 {
      SplitNoSep(key, '-');
    } else {
      var init := args[..|args| - 1];
      var last := args[|args| - 1];
      CacheKeyDecodes(key, init);
      SplitAppend(CacheKey(key, init), last, '-');
      SplitNoSep(last, '-');
      assert CacheKey(key, args) == CacheKey(key, init) + ['-'] + last;
      assert [key] + args == [key] + init + [last];
    }
  }

  /**
   * Without that condition two different calls can address the same entry:
   * `cache("a-b", v, "c")` and `cache("a", v, "b", "c")` use the same composite key.
   */
  lemma CacheKeyAmbiguous()
    ensures CacheKey("a-b", ["c"]) == CacheKey("a", ["b", "c"])
  {
    assert CacheKey("a", ["b", "c"]) == CacheKey("a", ["b"]) + "-" + "c";
    assert CacheKey("a", ["b"]) == "a" + "-" + "b";
  }

  /** `version()`: the Rythm version, a dash, and the configured plugin version. */
  function Version(engineVersion: string, pluginVersion: string): (r: string)
    ensures StartsWith(r, engineVersion + "-")
    ensures r[|engineVersion| + 1..] == pluginVersion
  {
    engineVersion + "-" + pluginVersion
  }

  /**
   * For one Rythm version, the fingerprint tells plugin versions apart: two plugin versions
   * give the same fingerprint only when they are equal.
   */
  lemma VersionSeparatesPlugins(engineVersion: string, p1: string, p2: string)
    requires Version(engineVersion, p1) == Version(engineVersion, p2)
    ensures p1 == p2
  {
    assert p1 == Version(engineVersion, p1)[|engineVersion| + 1..];
  }

  /** The prefix `_processConf` strips from configuration keys. */
  const RythmPrefix: string := "rythm."

  /** One key as `_processConf` rewrites it. */
  function StripRythm(k: string): (r: string)
    ensures StartsWith(k, RythmPrefix) ==> k == RythmPrefix + r
    ensures !StartsWith(k, RythmPrefix) ==> r == k
  {
    if StartsWith(k, RythmPrefix) then k[|RythmPrefix|..] else k
  }

  /** No other key of the map is rewritten to the same key as `k`. */
  ghost predicate Unambiguous<V>(conf: map<string, V>, k: string) {
    forall k2 | k2 in conf && StripRythm(k2) == StripRythm(k) :: k2 == k
  }

  /**
   * `_processConf`: a copy of the map with `rythm.` stripped from the keys. When both
   * `rythm.x` and `x` are present, which value `x` keeps depends on the map's iteration
   * order; the model leaves that choice open.
   */
  method ProcessConf<V>(conf: map<string, V>) returns (m: map<string, V>)
    ensures m.Keys == set k | k in conf :: StripRythm(k)
    ensures forall k' | k' in m :: exists k | k in conf :: StripRythm(k) == k' && m[k'] == conf[k]
    ensures forall k | k in conf && Unambiguous(conf, k) :: m[StripRythm(k)] == conf[k]
  {
    m := map[];
    var todo := conf.Keys;
    while todo != {}
      invariant todo <= conf.Keys
      invariant m.Keys == set k | k in conf.Keys - todo :: StripRythm(k)
      invariant forall k' | k' in m :: exists k | k in conf.Keys - todo :: StripRythm(k) == k' && m[k'] == conf[k]
      invariant forall k | k in conf.Keys - todo && Unambiguous(conf, k) :: m[StripRythm(k)] == conf[k]
      decreases todo
    {
      var s :| s in todo;
      var o := conf[s];
      m := m[StripRythm(s) := o];
      todo := todo - {s};
    }
  }

  /** An argument of a render call as `setRenderArgs` sees it. */
  datatype RenderArg = MapArg(entries: map<string, Tags.Value>) | JsonArg(json: string) | Other(value: Tags.Value)

  /** How the arguments reach the template instance. */
  datatype Binding =
    | ByName(entries: map<string, Tags.Value>)  // `__setRenderArgs(Map)`
    | ByJson(json: string)                      // `__setRenderArg(JSONWrapper)`
    | ByPosition(args: seq<RenderArg>)          // `__setRenderArgs(Object...)`

  /**
   * `setRenderArgs`: a single map argument binds by name, a single JSON wrapper is handed over
   * as such, and any other argument list binds by position.
   */
  function SetRenderArgs(args: seq<RenderArg>): (b: Binding)
    ensures b.ByName? <==> |args| == 1 && args[0].MapArg?
    ensures b.ByJson? <==> |args| == 1 && args[0].JsonArg?
    ensures b.ByName? ==> b.entries == args[0].entries
    ensures b.ByJson? ==> b.json == args[0].json
    ensures b.ByPosition? ==> b.args == args
  {
    if |args| == 1 then
      match args[0]
      case MapArg(m) => ByName(m)
      case JsonArg(j) => ByJson(j)
      case Other(_) => ByPosition(args)
    else ByPosition(args)
  }
}

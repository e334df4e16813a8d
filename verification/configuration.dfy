/**
 * `RythmConfiguration`: the raw configuration map, the cache of typed lookups in front of it,
 * and the accessors that derive flags, the restricted-class set and the template home from it.
 * The key enumeration `RythmConfigurationKey` is not part of this model: how a key reads its
 * value out of the raw map, how a string names a key, and how a key builds its implementation
 * list are abstract functions held in a `KeyTable`. The engine is abstract too: the model only
 * asks whether it runs in prod mode.
 */
module Configuration {
  import opened Wrappers
  import opened Strings
  import EngineUtil

  /** A `java.net.URI`; `FileUri` is the one `File.toURI()` gives for a path. */
  datatype Uri = Uri(text: string) | FileUri(path: string)

  /** The configuration values the modelled accessors tell apart. */
  datatype Value =
    | BoolVal(b: bool)
    | StrVal(s: string)
    | UriVal(uri: Uri)
    | ListVal(items: seq<Value>)
    | FileVal(path: string)
    | OtherVal(id: nat)

  /** The configuration keys the modelled accessors read; every other key is `OtherKey`. */
  datatype Key =
    | CacheEnabledKey
    | CacheProdOnlyEnabledKey
    | FileWriteEnabledKey
    | LoadPrecompiledEnabledKey
    | RestrictedClassKey
    | HomeTemplateKey
    | ResourceBundleEncodingKey
    | OtherKey(id: nat)

  /** The raw map, by string key. */
  type Raw = map<string, Value>

  /** An entry of the `data` cache: a value, or the `RawData.NULL` sentinel for "looked up, was null". */
  datatype Stored = Present(value: Value) | NullSentinel

  /** What `RythmConfigurationKey` offers the configuration. */
  datatype KeyTable = KeyTable(
    keyName: Key -> string,                     // `getKey()`
    byName: string -> Option<Key>,              // `valueOfIgnoreCase`, `None` for `null`
    getConfiguration: (Key, Raw) -> Option<Value>, // `getConfiguration(raw)`, `None` for `null`
    implList: (string, Raw) -> seq<Value>)      // `getImplList(key, raw, c)`

  /** The runtime exceptions the accessors can raise. */
  datatype ConfError =
    | NullPointer   // unboxing a `null` `Boolean`
    | ClassCast     // a value of the wrong type where a `Boolean`, `String` or `List` is expected

  /** A cache entry as `get` reports it: the sentinel becomes `null`. */
  function Reported(s: Stored): (r: Option<Value>)
    ensures r.None? <==> s.NullSentinel?
    ensures r.Some? ==> s == Present(r.value)
  {
    if s.NullSentinel? then None else Some(s.value)
  }

  /**
   * `get(key)` on the pair (answer, new cache): a cached entry answers at once; otherwise the
   * key computes its value from the raw map and the cache remembers it, `null` as the sentinel.
   */
  function Lookup(keys: KeyTable, data: map<Key, Stored>, raw: Raw, key: Key): (res: (Option<Value>, map<Key, Stored>))
    ensures key in res.1 && res.0 == Reported(res.1[key])
    ensures key in data ==> res.1 == data
    ensures key !in data ==> res.0 == keys.getConfiguration(key, raw) && res.1.Keys == data.Keys + {key}
    ensures forall k | k in data :: k in res.1 && res.1[k] == data[k]
  {
    if key in data then (Reported(data[key]), data)
    else
      var o := keys.getConfiguration(key, raw);
      (o, data[key := if o.Some? then Present(o.value) else NullSentinel])
  }

  /**
   * Memoisation: once a key is looked up, looking it up again gives the same answer and leaves
   * the cache alone, even when the raw map has changed in between.
   */
  lemma LookupIsMemoised(keys: KeyTable, data: map<Key, Stored>, raw: Raw, raw': Raw, key: Key)
    ensures Lookup(keys, Lookup(keys, data, raw, key).1, raw', key) == Lookup(keys, data, raw, key)
  {
  }

  /** Looking one key up never changes the answer for any key, as long as the raw map stays. */
  lemma LookupKeepsAnswers(keys: KeyTable, data: map<Key, Stored>, raw: Raw, key: Key)
    ensures forall k :: Lookup(keys, Lookup(keys, data, raw, key).1, raw, k).0 == Lookup(keys, data, raw, k).0
  {
    var data' := Lookup(keys, data, raw, key).1;
    forall k ensures Lookup(keys, data', raw, k).0 == Lookup(keys, data, raw, k).0 {
      if k != key && k !in data {
        assert k !in data';
      }
    }
  }

  /** `Boolean b = get(key)` followed by unboxing. */
  function AsBool(v: Option<Value>): (r: Result<bool, ConfError>)
    ensures r.Success? <==> v.Some? && v.value.BoolVal?
    ensures r.Success? ==> r.value == v.value.b
    ensures v.None? ==> r == Failure(NullPointer)
    ensures v.Some? && !v.value.BoolVal? ==> r == Failure(ClassCast)
  {
    match v
    case None => Failure(NullPointer)
    case Some(BoolVal(b)) => Success(b)
    case Some(_) => Failure(ClassCast)
  }

  /** The rule of `cacheEnabled()` once the two flags are fetched. */
  function CacheEnabledRule(enabled: Result<bool, ConfError>, prod: bool, prodOnly: Result<bool, ConfError>): (r: Result<bool, ConfError>)
    ensures r == Success(true) <==> enabled == Success(true) && (prod || prodOnly == Success(false))
    ensures r == Success(false) <==> enabled == Success(false) || (enabled == Success(true) && !prod && prodOnly == Success(true))
    ensures r.Failure? <==> enabled.Failure? || (enabled == Success(true) && !prod && prodOnly.Failure?)
  {
    if enabled.Failure? then enabled
    else if !enabled.value then Success(false)
    else if prod then Success(true)
    else if prodOnly.Failure? then prodOnly
    else Success(!prodOnly.value)
  }

  /** The rule of `disableFileWrite()`: writing is disabled unless it is enabled and not on GAE. */
  function DisableFileWriteRule(fileWrite: Result<bool, ConfError>, gae: bool): (r: Result<bool, ConfError>)
    ensures r.Failure? <==> fileWrite.Failure?
    ensures r.Success? ==> (r.value <==> !fileWrite.value || gae)
  {
    if fileWrite.Failure? then fileWrite else Success(!(fileWrite.value && !gae))
  }

  /** The rule of `loadPrecompiled()`: load when configured to, and always on GAE. */
  function LoadPrecompiledRule(precompiled: Result<bool, ConfError>, gae: bool): (r: Result<bool, ConfError>)
    ensures r.Failure? <==> precompiled.Failure?
    ensures r.Success? ==> (r.value <==> precompiled.value || gae)
  {
    if precompiled.Failure? then precompiled else Success(precompiled.value || gae)
  }

  /** `resourceBundleEncoding()` from the fetched value: `"default"` when unset. */
  function EncodingRule(v: Option<Value>): (r: Result<string, ConfError>)
    ensures v.None? ==> r == Success("default")
    ensures v.Some? ==> (r.Success? <==> v.value.StrVal?)
    ensures r.Success? && v.Some? ==> r.value == v.value.s
    ensures r.Failure? ==> r.error == ClassCast
  {
    match v
    case None => Success("default")
    case Some(StrVal(s)) => Success(s)
    case Some(_) => Failure(ClassCast)
  }

  /** `templateHome()` from the fetched value: a URI, a list, or a file becomes a list of URIs. */
  function TemplateHomeRule(o: Option<Value>): (r: Option<seq<Value>>)
    ensures r.None? <==> o.None? || !(o.value.UriVal? || o.value.ListVal? || o.value.FileVal?)
    ensures o.Some? && o.value.UriVal? ==> r == Some([o.value])
    ensures o.Some? && o.value.ListVal? ==> r == Some(o.value.items)
    ensures o.Some? && o.value.FileVal? ==> r == Some([UriVal(FileUri(o.value.path))])
  {
    match o
    case Some(UriVal(_)) => Some([o.value])
    case Some(ListVal(items)) => Some(items)
    case Some(FileVal(path)) => Some([UriVal(FileUri(path))])
    case _ => None
  }

  /**
   * The classes `restrictedClasses()` always adds to the configured ones, in the order the
   * source lists them. The source writes them as one `;`-separated string.
   */
  const BuiltInRestrictedNames: seq<string> :=
    ["org.rythmengine.Rythm", "RythmEngine", "RythmSecurityManager,java.io", "java.nio",
     "java.security", "java.rmi", "java.net", "java.awt", "java.applet"]

  /**
   * What `restrictedClasses()` appends to the configured string:
   * `;org.rythmengine.Rythm;RythmEngine;RythmSecurityManager,java.io;java.nio;java.security;java.rmi;java.net;java.awt;java.applet`.
   */
  const BuiltInRestricted: string := ";" + Join(BuiltInRestrictedNames, ';')

  /** `String s = get(SANDBOX_RESTRICTED_CLASS)`: a `null` joins the concatenation as `"null"`. */
  function ConfiguredText(v: Option<Value>): (r: Result<string, ConfError>)
    ensures v.None? ==> r == Success("null")
    ensures v.Some? ==> (r.Success? <==> v.value.StrVal?)
    ensures r.Success? && v.Some? ==> r.value == v.value.s
  {
    match v
    case None => Success("null")
    case Some(StrVal(s)) => Success(s)
    case Some(_) => Failure(ClassCast)
  }

  /** The trimmed non-empty pieces of a `;`-separated list. */
  function RestrictedSet(s: string): set<string> {
    set p | p in Split(s, ';') && Trim(p) != "" :: Trim(p)
  }

  /**
   * What the list parse yields: every entry is a proper class name, and every piece that
   * is not all blanks contributes its trimmed form.
   */
  lemma RestrictedSetMembers(s: string)
    ensures forall n | n in RestrictedSet(s) :: ProperName(n)
    ensures forall p | p in Split(s, ';') && !Blank(p) :: Trim(p) in RestrictedSet(s)
  {
    forall n | n in RestrictedSet(s) ensures ProperName(n) {
      var p :| p in Split(s, ';') && Trim(p) != "" && Trim(p) == n;
      TrimKeepsOut(p, ';');
    }
  }

  /** A piece made of blanks only. */
  predicate Blank(p: string) {
    forall i :: 0 <= i < |p| ==> IsTrimmed(p[i])
  }

  /** Trimming never brings in a character the text did not have. */
  lemma TrimKeepsOut(p: string, c: char)
    requires c !in p
    ensures c !in Trim(p)
  {
  }

  /** A list joined at `;` yields the union of what its two halves yield. */
  lemma RestrictedSetAppend(a: string, b: string)
    ensures RestrictedSet(a + [';'] + b) == RestrictedSet(a) + RestrictedSet(b)
  {
    SplitAppend(a, b, ';');
  }

  /** A class name the list parse returns unchanged: no `;` and no blank at either end. */
  predicate ProperName(n: string) {
    n != [] && ';' !in n && !IsTrimmed(n[0]) && !IsTrimmed(n[|n| - 1])
  }

  /** A list of proper names joined at `;` yields exactly those names. */
  lemma JoinedNamesYield(names: seq<string>)
    requires |names| >= 1 && forall i :: 0 <= i < |names| ==> ProperName(names[i])
    ensures RestrictedSet(Join(names, ';')) == set n | n in names
  {
    SplitJoin(names, ';');
    forall n | n in names ensures n in RestrictedSet(Join(names, ';')) {
      assert Trim(n) == n;
    }
  }

  /** Every built-in name is proper. */
  lemma BuiltInNamesProper()
    ensures forall i :: 0 <= i < |BuiltInRestrictedNames| ==> ProperName(BuiltInRestrictedNames[i])
  {
  }

  /** `restrictedClasses()` for a configured list `c`: the configured entries plus the built-in ones. */
  lemma RestrictedClassesOf(c: string)
    ensures RestrictedSet(c + BuiltInRestricted) == RestrictedSet(c) + set n | n in BuiltInRestrictedNames
  {
    var tail := Join(BuiltInRestrictedNames, ';');
    assert c + BuiltInRestricted == c + [';'] + tail;
    RestrictedSetAppend(c, tail);
    BuiltInNamesProper();
    JoinedNamesYield(BuiltInRestrictedNames);
  }

  /**
   * With `RestrictedClassesOf`: the comma in the built-in list keeps
   * `RythmSecurityManager,java.io` as one entry, so `java.io` itself is restricted only when
   * the configured list names it.
   */
  lemma JavaIoOnlyWhenConfigured(c: string)
    ensures "RythmSecurityManager,java.io" in RestrictedSet(c) + set n | n in BuiltInRestrictedNames
    ensures "java.io" in RestrictedSet(c) + (set n | n in BuiltInRestrictedNames) <==> "java.io" in RestrictedSet(c)
  {
    assert BuiltInRestrictedNames[2] == "RythmSecurityManager,java.io";
    assert "java.io" !in BuiltInRestrictedNames by {
      assert |"java.io"| == 7;
    }
  }

  /** The loop of `restrictedClasses()`: trim every `;`-separated piece, keep the non-empty ones. */
  method ParseRestricted(s: string) returns (r: set<string>)
    ensures r == RestrictedSet(s)
  {
    var pieces := Split(s, ';');
    r := {};
    var i := 0;
    while i < |pieces|
      invariant 0 <= i <= |pieces|
      invariant r == set p | p in pieces[..i] && Trim(p) != "" :: Trim(p)
    {
      var cls := Trim(pieces[i]);
      assert pieces[..i + 1] == pieces[..i] + [pieces[i]];
      if cls != "" {
        r := r + {cls};
      }
      i := i + 1;
    }
    assert pieces[..|pieces|] == pieces;
  }

  class RythmConfiguration {
    /** The key enumeration's behaviour. */
    const keys: KeyTable
    /** This object is `EMPTY_CONF`. */
    const isEmptyConf: bool
    /** The engine's `isProdMode()`. */
    const prodMode: bool
    /** `gae()`: whether the engine runs in the Google App Engine cloud. */
    const gae: bool

    /** `raw`. */
    var raw: Raw
    /** `data`: the typed-lookup cache. */
    var data: map<Key, Stored>
    /** The memo fields `_cacheEnabled`, `_disableFileWrite`, `_loadPrecompiled`, `_restrictedClasses`, `_templateHome`, `_resourceBundleEncoding`. */
    var cacheEnabledMemo: Option<bool>
    var disableFileWriteMemo: Option<bool>
    var loadPrecompiledMemo: Option<bool>
    var restrictedMemo: Option<set<string>>
    var templateHomeMemo: Option<seq<Value>>
    var encodingMemo: Option<string>

    /** What `get(key)` answers in the current state. */
    ghost function Resolve(key: Key): Option<Value>
      reads this
    {
      Lookup(keys, data, raw, key).0
    }

    /** What `cacheEnabled()` answers in the current state. */
    ghost function CacheEnabledAnswer(): Result<bool, ConfError>
      reads this
    {
      if isEmptyConf then Success(false)
      else if cacheEnabledMemo.Some? then Success(cacheEnabledMemo.value)
      else CacheEnabledRule(AsBool(Resolve(CacheEnabledKey)), prodMode, AsBool(Resolve(CacheProdOnlyEnabledKey)))
    }

    /** What `disableFileWrite()` answers in the current state. */
    ghost function DisableFileWriteAnswer(): Result<bool, ConfError>
      reads this
    {
      if disableFileWriteMemo.Some? then Success(disableFileWriteMemo.value)
      else DisableFileWriteRule(AsBool(Resolve(FileWriteEnabledKey)), gae)
    }

    /** What `loadPrecompiled()` answers in the current state. */
    ghost function LoadPrecompiledAnswer(): Result<bool, ConfError>
      reads this
    {
      if loadPrecompiledMemo.Some? then Success(loadPrecompiledMemo.value)
      else LoadPrecompiledRule(AsBool(Resolve(LoadPrecompiledEnabledKey)), gae)
    }

    /** What `restrictedClasses()` answers in the current state. */
    ghost function RestrictedAnswer(): Result<set<string>, ConfError>
      reads this
    {
      if restrictedMemo.Some? then Success(restrictedMemo.value)
      else
        var text := ConfiguredText(Resolve(RestrictedClassKey));
        if text.Failure? then Failure(text.error) else Success(RestrictedSet(text.value + BuiltInRestricted))
    }

    /** What `templateHome()` answers in the current state. */
    ghost function TemplateHomeAnswer(): Option<seq<Value>>
      reads this
    {
      if templateHomeMemo.Some? then templateHomeMemo else TemplateHomeRule(Resolve(HomeTemplateKey))
    }

    /** What `resourceBundleEncoding()` answers in the current state. */
    ghost function EncodingAnswer(): Result<string, ConfError>
      reads this
    {
      if encodingMemo.Some? then Success(encodingMemo.value) else EncodingRule(Resolve(ResourceBundleEncodingKey))
    }

    /**
     * `RythmConfiguration(configuration, engine)`: `raw` is a copy of the given map and the
     * cache starts empty.
     */
    constructor (configuration: Raw, keys: KeyTable, prodMode: bool, gae: bool)
      ensures this.keys == keys && !isEmptyConf && this.prodMode == prodMode && this.gae == gae
      ensures raw == configuration && data == map[]
      ensures cacheEnabledMemo.None? && disableFileWriteMemo.None? && loadPrecompiledMemo.None?
      ensures restrictedMemo.None? && templateHomeMemo.None? && encodingMemo.None?
    {
      this.keys := keys;
      this.isEmptyConf := false;
      this.prodMode := prodMode;
      this.gae := gae;
      raw := configuration;
      data := map[];
      cacheEnabledMemo, disableFileWriteMemo, loadPrecompiledMemo := None, None, None;
      restrictedMemo, templateHomeMemo, encodingMemo := None, None, None;
    }

    /** `EMPTY_CONF`: an empty map and no engine. */
    constructor Empty(keys: KeyTable, gae: bool)
      ensures this.keys == keys && isEmptyConf && this.gae == gae
      ensures raw == map[] && data == map[]
      ensures cacheEnabledMemo.None? && disableFileWriteMemo.None? && loadPrecompiledMemo.None?
      ensures restrictedMemo.None? && templateHomeMemo.None? && encodingMemo.None?
    {
      this.keys := keys;
      this.isEmptyConf := true;
      this.prodMode := false;
      this.gae := gae;
      raw := map[];
      data := map[];
      cacheEnabledMemo, disableFileWriteMemo, loadPrecompiledMemo := None, None, None;
      restrictedMemo, templateHomeMemo, encodingMemo := None, None, None;
    }

    /** `get(RythmConfigurationKey)`. */
    method Get(key: Key) returns (r: Option<Value>)
      modifies this`data
      ensures (r, data) == Lookup(keys, old(data), raw, key)
    {
      if key in data {
        r := Reported(data[key]);
      } else {
        r := keys.getConfiguration(key, raw);
        data := data[key := if r.Some? then Present(r.value) else NullSentinel];
      }
    }

    /**
     * `getList(key, c)`: a cached entry is cast to a list (the sentinel and any other value
     * fail the cast); otherwise the key's implementation list is built and cached, so that a
     * later `get(key)` returns it.
     */
    method GetList(key: Key) returns (r: Result<seq<Value>, ConfError>)
      modifies this`data
      ensures key in old(data) ==> data == old(data)
      ensures key in old(data) ==>
                (r.Success? <==> old(data)[key].Present? && old(data)[key].value.ListVal?)
      ensures key in old(data) && r.Success? ==> r.value == old(data)[key].value.items
      ensures key in old(data) && r.Failure? ==> r.error == ClassCast
      ensures key !in old(data) ==>
                r == Success(keys.implList(keys.keyName(key), raw)) && data == old(data)[key := Present(ListVal(r.value))]
      ensures r.Success? ==> Resolve(key) == Some(ListVal(r.value))
    {
      if key in data {
        var o := data[key];
        if o.Present? && o.value.ListVal? {
          return Success(o.value.items);
        }
        return Failure(ClassCast);
      }
      var l := keys.implList(keys.keyName(key), raw);
      data := data[key := Present(ListVal(l))];
      return Success(l);
    }

    /**
     * `get(String)`: a leading `rythm.` is dropped; a name the key enumeration knows goes
     * through the typed, cached lookup, any other name is read from the raw map directly
     * and leaves the cache alone.
     */
    method GetByName(key: string) returns (r: Option<Value>)
      modifies this`data
      ensures keys.byName(EngineUtil.StripRythm(key)).None? ==>
                data == old(data)
                && r == (if EngineUtil.StripRythm(key) in raw then Some(raw[EngineUtil.StripRythm(key)]) else None)
      ensures keys.byName(EngineUtil.StripRythm(key)).Some? ==>
                (r, data) == Lookup(keys, old(data), raw, keys.byName(EngineUtil.StripRythm(key)).value)
    {
      var k := key;
      if StartsWith(k, "rythm.") {
        k := k[|"rythm."|..];
      }
      var rk := keys.byName(k);
      if rk.Some? {
        r := Get(rk.value);
      } else {
        r := if k in raw then Some(raw[k]) else None;
      }
    }

    /**
     * `cacheEnabled()`: false for `EMPTY_CONF`; otherwise the memoised rule. The lookups it
     * makes change no answer `get` gives.
     */
    method CacheEnabled() returns (r: Result<bool, ConfError>)
      modifies this`data, this`cacheEnabledMemo
      ensures r == old(CacheEnabledAnswer())
      ensures r.Success? ==> CacheEnabledAnswer() == r
      ensures r.Success? && !isEmptyConf ==> cacheEnabledMemo == Some(r.value)
      ensures r.Failure? || isEmptyConf ==> cacheEnabledMemo == old(cacheEnabledMemo)
      ensures forall k :: Resolve(k) == old(Resolve(k))
      ensures forall k | k in old(data) :: k in data && data[k] == old(data)[k]
    {
      if isEmptyConf {
        return Success(false);
      }
      if cacheEnabledMemo.Some? {
        return Success(cacheEnabledMemo.value);
      }
      ghost var data0 := data;
      var ce := Get(CacheEnabledKey);
      LookupKeepsAnswers(keys, data0, raw, CacheEnabledKey);
      var enabled := AsBool(ce);
      if enabled.Failure? {
        return Failure(enabled.error);
      }
      if !enabled.value {
        cacheEnabledMemo := Some(false);
      } else if prodMode {
        cacheEnabledMemo := Some(true);
      } else {
        ghost var data1 := data;
        var po := Get(CacheProdOnlyEnabledKey);
        LookupKeepsAnswers(keys, data1, raw, CacheProdOnlyEnabledKey);
        var prodOnly := AsBool(po);
        if prodOnly.Failure? {
          return Failure(prodOnly.error);
        }
        cacheEnabledMemo := Some(!prodOnly.value);
      }
      return Success(cacheEnabledMemo.value);
    }

    /** `cacheDisabled()`: the negation of `cacheEnabled()`. */
    method CacheDisabled() returns (r: Result<bool, ConfError>)
      modifies this`data, this`cacheEnabledMemo
      ensures r.Success? <==> old(CacheEnabledAnswer()).Success?
      ensures r.Success? ==> r.value == !old(CacheEnabledAnswer()).value
      ensures r.Failure? ==> old(CacheEnabledAnswer()) == Failure(r.error)
      ensures r.Success? ==> CacheEnabledAnswer() == Success(!r.value)
      ensures r.Success? && !isEmptyConf ==> cacheEnabledMemo == Some(!r.value)
      ensures r.Failure? || isEmptyConf ==> cacheEnabledMemo == old(cacheEnabledMemo)
      ensures forall k :: Resolve(k) == old(Resolve(k))
      ensures forall k | k in old(data) :: k in data && data[k] == old(data)[k]
    {
      var e := CacheEnabled();
      r := if e.Success? then Success(!e.value) else Failure(e.error);
    }

    /** `disableFileWrite()`: the memoised rule. */
    method DisableFileWrite() returns (r: Result<bool, ConfError>)
      modifies this`data, this`disableFileWriteMemo
      ensures r == old(DisableFileWriteAnswer())
      ensures r.Success? ==> DisableFileWriteAnswer() == r
      ensures r.Success? ==> disableFileWriteMemo == Some(r.value)
      ensures r.Failure? ==> disableFileWriteMemo == old(disableFileWriteMemo)
      ensures forall k :: Resolve(k) == old(Resolve(k))
      ensures forall k | k in old(data) :: k in data && data[k] == old(data)[k]
    {
      if disableFileWriteMemo.None? {
        ghost var data0 := data;
        var fw := Get(FileWriteEnabledKey);
        LookupKeepsAnswers(keys, data0, raw, FileWriteEnabledKey);
        var b := AsBool(fw);
        if b.Failure? {
          return Failure(b.error);
        }
        var enabled := b.value && !gae;
        disableFileWriteMemo := Some(!enabled);
      }
      return Success(disableFileWriteMemo.value);
    }

    /** `loadPrecompiled()`: the memoised rule. */
    method LoadPrecompiled() returns (r: Result<bool, ConfError>)
      modifies this`data, this`loadPrecompiledMemo
      ensures r == old(LoadPrecompiledAnswer())
      ensures r.Success? ==> LoadPrecompiledAnswer() == r
      ensures r.Success? ==> loadPrecompiledMemo == Some(r.value)
      ensures r.Failure? ==> loadPrecompiledMemo == old(loadPrecompiledMemo)
      ensures forall k :: Resolve(k) == old(Resolve(k))
      ensures forall k | k in old(data) :: k in data && data[k] == old(data)[k]
    {
      if loadPrecompiledMemo.None? {
        ghost var data0 := data;
        var pc := Get(LoadPrecompiledEnabledKey);
        LookupKeepsAnswers(keys, data0, raw, LoadPrecompiledEnabledKey);
        var b := AsBool(pc);
        if b.Failure? {
          return Failure(b.error);
        }
        loadPrecompiledMemo := Some(b.value || gae);
      }
      return Success(loadPrecompiledMemo.value);
    }

    /**
     * `restrictedClasses()`: the configured list followed by the built-in one, parsed once
     * and memoised.
     */
    method RestrictedClasses() returns (r: Result<set<string>, ConfError>)
      modifies this`data, this`restrictedMemo
      ensures r == old(RestrictedAnswer())
      ensures r.Success? ==> RestrictedAnswer() == r
      ensures r.Success? ==> restrictedMemo == Some(r.value)
      ensures r.Failure? ==> restrictedMemo == old(restrictedMemo)
      ensures forall k :: Resolve(k) == old(Resolve(k))
      ensures forall k | k in old(data) :: k in data && data[k] == old(data)[k]
    {
      if restrictedMemo.None? {
        ghost var data0 := data;
        var o := Get(RestrictedClassKey);
        LookupKeepsAnswers(keys, data0, raw, RestrictedClassKey);
        var text := ConfiguredText(o);
        if text.Failure? {
          return Failure(text.error);
        }
        var s := text.value + BuiltInRestricted;
        var classes := ParseRestricted(s);
        restrictedMemo := Some(classes);
      }
      return Success(restrictedMemo.value);
    }

    /** `templateHome()`: memoised only once it finds a URI, a list or a file. */
    method TemplateHome() returns (r: Option<seq<Value>>)
      modifies this`data, this`templateHomeMemo
      ensures r == old(TemplateHomeAnswer())
      ensures TemplateHomeAnswer() == r
      ensures templateHomeMemo == r
      ensures forall k :: Resolve(k) == old(Resolve(k))
      ensures forall k | k in old(data) :: k in data && data[k] == old(data)[k]
    {
      if templateHomeMemo.None? {
        ghost var data0 := data;
        var o := Get(HomeTemplateKey);
        LookupKeepsAnswers(keys, data0, raw, HomeTemplateKey);
        templateHomeMemo := TemplateHomeRule(o);
      }
      return templateHomeMemo;
    }

    /**
     * `setTemplateHome(home)`: writes the file into both maps, so `get(HOME_TEMPLATE)`
     * answers it from then on. It does not clear `_templateHome`: a template home already
     * memoised keeps being returned.
     */
    method SetTemplateHome(home: string)
      modifies this`raw, this`data
      ensures raw == old(raw)[keys.keyName(HomeTemplateKey) := FileVal(home)]
      ensures data == old(data)[HomeTemplateKey := Present(FileVal(home))]
      ensures Resolve(HomeTemplateKey) == Some(FileVal(home))
      ensures TemplateHomeAnswer() == if templateHomeMemo.Some? then templateHomeMemo else Some([UriVal(FileUri(home))])
    {
      raw := raw[keys.keyName(HomeTemplateKey) := FileVal(home)];
      data := data[HomeTemplateKey := Present(FileVal(home))];
    }

    /** `resourceBundleEncoding()`: the memoised rule, `"default"` when unset. */
    method ResourceBundleEncoding() returns (r: Result<string, ConfError>)
      modifies this`data, this`encodingMemo
      ensures r == old(EncodingAnswer())
      ensures r.Success? ==> EncodingAnswer() == r
      ensures r.Success? ==> encodingMemo == Some(r.value)
      ensures r.Failure? ==> encodingMemo == old(encodingMemo)
      ensures forall k :: Resolve(k) == old(Resolve(k))
      ensures forall k | k in old(data) :: k in data && data[k] == old(data)[k]
    {
      if encodingMemo.None? {
        ghost var data0 := data;
        var o := Get(ResourceBundleEncodingKey);
        LookupKeepsAnswers(keys, data0, raw, ResourceBundleEncodingKey);
        var e := EncodingRule(o);
        if e.Failure? {
          return Failure(e.error);
        }
        encodingMemo := Some(e.value);
      }
      return Success(encodingMemo.value);
    }
  }

  /** Two `cacheDisabled()` calls in a row: once the first succeeds, the second answers the same. */
  method CacheDisabledIsStable(c: RythmConfiguration)
    returns (first: Result<bool, ConfError>, second: Result<bool, ConfError>)
    modifies c
    ensures first.Success? ==> second == first
  {
    first := c.CacheDisabled();
    second := c.CacheDisabled();
  }

  /**
   * `setTemplateHome` between two `templateHome()` calls: a template home the first call found
   * is returned again by the second, since the memo is not cleared; only when the first call
   * found none does the second see the new file.
   */
  method StaleTemplateHome(c: RythmConfiguration, home: string)
    returns (before: Option<seq<Value>>, after: Option<seq<Value>>)
    modifies c
    ensures before.Some? ==> after == before
    ensures before.None? ==> after == Some([UriVal(FileUri(home))])
  {
    before := c.TemplateHome();
    c.SetTemplateHome(home);
    after := c.TemplateHome();
  }
}

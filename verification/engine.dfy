/**
 * The state `RythmEngine` keeps for tags, missing templates, the render cache and template
 * inheritance, and the operations that change it.
 */
module Engine {
  import opened Wrappers
  import opened Strings
  import opened Tags
  import opened ExtendGraph
  import opened EngineUtil

  /** `JavaTagBase` prototypes only: what `restart()` keeps of the registry. */
  function JavaTagsOf(tags: Registry): (r: Registry)
    ensures forall n :: n in r <==> n in tags && tags[n].JavaTag?
    ensures forall n :: n in r ==> r[n] == tags[n]
  {
    map n | n in tags && tags[n].JavaTag? :: tags[n]
  }

  /** Restarting twice keeps what restarting once kept. */
  lemma JavaTagsOfIdempotent(tags: Registry)
    ensures JavaTagsOf(JavaTagsOf(tags)) == JavaTagsOf(tags)
  {
  }

  /** After a restart every template-tag name is free again, so it can be registered anew. */
  lemma RestartFreesTemplateNames(tags: Registry, n: string)
    requires n in tags && tags[n].TemplateTag?
    ensures n !in JavaTagsOf(tags)
  {
  }

  /**
   * The `__setRenderArg` loop of `invokeTag` for a template tag: named parameters by name,
   * the others by their index in the list.
   */
  method BindParams(params: seq<Param>) returns (byName: map<string, Value>, byIndex: map<nat, Value>)
    ensures byName == BindByName(params) && byIndex == BindByIndex(params)
  {
    byName, byIndex := map[], map[];
    var i := 0;
    while i < |params|
      invariant 0 <= i <= |params|
      invariant byName == BindByName(params[..i]) && byIndex == BindByIndex(params[..i])
    {
      assert params[..i + 1][..i] == params[..i];
      var param := params[i];
      if param.name.Some? {
        byName := byName[param.name.value := param.value];
      } else {
        byIndex := byIndex[i := param.value];
      }
      i := i + 1;
    }
    assert params[..|params|] == params;
  }

  /** What `renderIfTemplateExists` does with a template name. */
  datatype RenderOutcome =
    | Skipped              // returns `""` without rendering
    | Rendered(key: string) // renders the template class registered under `key`

  class RythmEngine {
    /** `isProdMode()`: the mode is read once from the configuration and never changes. */
    const prod: bool
    /** `conf().cacheEnabled()` of the engine's own configuration. */
    const cacheEnabled: bool
    /** The Rythm version string read at class-load time. */
    const engineVersion: string
    /** `conf().pluginVersion()`. */
    const pluginVersion: string

    /** `_tags`. */
    var tags: Registry
    /** `_nonTags`: names `testTag` failed on, in prod mode. */
    var nonTags: set<string>
    /** `_nonExistsTags`: names `invokeTag` skipped because they were missing. */
    var nonExistsTags: set<string>
    /** `nonExistsTemplates`: names `renderIfTemplateExists` found no resource for. */
    var nonExistsTemplates: set<string>
    /** The keys under which `_classes` (the `TemplateClassManager`) holds a template class. */
    var classes: set<string>
    /** `extendMap`. */
    var extendMap: ExtendMap
    /** The `TemplateClass.reset()` calls made so far, in order. */
    var resetLog: seq<ClassRef>
    /** The entries of the cache service, by composite key. */
    var cacheStore: map<string, string>

    /** The negative tag cache exists in prod mode only; the extend graph in dev mode only. */
    ghost predicate Valid()
      reads this
    {
      && (!prod ==> nonTags == {})
      && (prod ==> extendMap == map[] && resetLog == [])
    }

    /** `init`: every registry starts empty except for the built-in Java tag `chain`. */
    constructor (prod: bool, cacheEnabled: bool, engineVersion: string, pluginVersion: string)
      ensures Valid()
      ensures this.prod == prod && this.cacheEnabled == cacheEnabled
      ensures this.engineVersion == engineVersion && this.pluginVersion == pluginVersion
      ensures tags == map["chain" := JavaTag("chain")]
      ensures nonTags == {} && nonExistsTags == {} && nonExistsTemplates == {} && classes == {}
      ensures extendMap == map[] && resetLog == [] && cacheStore == map[]
    {
      this.prod := prod;
      this.cacheEnabled := cacheEnabled;
      this.engineVersion := engineVersion;
      this.pluginVersion := pluginVersion;
      tags := map["chain" := JavaTag("chain")];
      nonTags, nonExistsTags, nonExistsTemplates, classes := {}, {}, {}, {};
      extendMap, resetLog, cacheStore := map[], [], map[];
    }

    /** `hasTag`. */
    method HasTag(name: string) returns (r: bool)
      ensures r <==> name in tags
    {
      r := name in tags;
    }

    /** `getTag`: `None` for Java's `null`. */
    method GetTag(name: string) returns (r: Option<Tag>)
      ensures r.Some? <==> name in tags
      ensures r.Some? ==> r.value == tags[name]
    {
      r := if name in tags then Some(tags[name]) else None;
    }

    /**
     * `registerTag(name, tag)`: a `null` tag is refused with a `NullPointerException`; an
     * existing name is never overwritten (the answer is `false`); otherwise exactly the one
     * entry is added and the answer is `true`.
     */
    method RegisterTag(name: string, tag: Option<Tag>) returns (r: Result<bool, TagError>)
      requires Valid()
      modifies this`tags
      ensures Valid()
      ensures tag.None? ==> r.Failure? && tags == old(tags)
      ensures tag.Some? && name in old(tags) ==> r == Success(false) && tags == old(tags)
      ensures tag.Some? && name !in old(tags) ==> r == Success(true) && tags == old(tags)[name := tag.value]
      ensures forall n :: n in old(tags) ==> n in tags && tags[n] == old(tags)[n]
    {
      if tag.None? {
        return Failure(NullPointer(""));
      }
      if name in tags {
        return Success(false);
      }
      tags := tags[name := tag.value];
      return Success(true);
    }

    /** The import-path loop of `testTag` and `invokeTag`: the first `p.name` registered. */
    method LookupImported(imports: seq<string>, name: string) returns (r: Option<string>)
      ensures r == ImportedName(tags, imports, name)
    {
      var i := 0;
      while i < |imports|
        invariant 0 <= i <= |imports|
        invariant forall j :: 0 <= j < i ==> Qualify(imports[j], name) !in tags
      {
        var name0 := Qualify(imports[i], name);
        if name0 in tags {
          return Some(name0);
        }
        i := i + 1;
      }
      return None;
    }

    /**
     * `testTag(name, tc)`: resolves `name` as `Tags.TestTag` describes; the tag the loader
     * compiles is registered, and in prod mode a name the loader failed on is remembered in
     * `_nonTags`.
     */
    method TestTag(name: string, tc: TemplateClass, loader: Loader) returns (r: Option<string>)
      requires Valid()
      modifies this`nonTags, this`tags
      ensures Valid()
      ensures r == Tags.TestTag(old(tags), old(nonTags), prod, name, tc, loader)
      ensures nonTags == NonTagsAfterTest(old(tags), old(nonTags), prod, name, tc, loader)
      ensures tags == LookupRegistry(old(tags), TestReachesLoader(old(tags), old(nonTags), prod, name, tc),
                                     name, tc, loader)
    {
      if name == ThisKeyword {
        return Some(tc.fullName);
      }
      if prod && name in nonTags {
        return None;
      }
      if name in tags {
        return Some(name);
      }
      var imported := LookupImported(tc.importPaths, name);
      if imported.Some? {
        return imported;
      }
      var ns := ParentNamespace(tc.fullName);
      if ns.Some? {
        var name0 := Qualify(ns.value, name);
        if name0 in tags {
          return Some(name0);
        }
      }
      var tagTC := loader(name, tc);
      tags := AfterLoad(tags, tagTC);
      if tagTC.None? {
        if prod {
          nonTags := nonTags + {name};
        }
        return None;
      }
      return Some(tagTC.value.cls.fullName);
    }

    /**
     * The lookup of `invokeTag`: the exact name, the caller itself, the import paths, the
     * caller's namespace, and last the registry entry of the class the loader compiled and
     * registered.
     */
    method ResolveTag(name: string, caller: Caller, loader: Loader) returns (tag: Option<Tag>)
      modifies this`tags
      ensures tag == InvokeResolve(old(tags), name, caller, loader)
      ensures tags == LookupRegistry(old(tags), InvokeReachesLoader(old(tags), name, caller),
                                     name, caller.cls, loader)
    {
      tag := if name in tags then Some(tags[name]) else None;
      var tc := caller.cls;
      if tag.None? && name == caller.name {
        tag := Some(caller.self);
      }
      if tag.None? {
        var imported := LookupImported(tc.importPaths, name);
        if imported.Some? {
          tag := Some(tags[imported.value]);
        }
      }
      if tag.None? {
        var ns := ParentNamespace(tc.fullName);
        if ns.Some? {
          var name0 := Qualify(ns.value, name);
          if name0 in tags {
            tag := Some(tags[name0]);
          }
        }
      }
      if tag.None? {
        var tagC := loader(name, tc);
        tags := AfterLoad(tags, tagC);
        if tagC.Some? {
          tag := Some(tags[tagC.value.cls.fullName]);
        }
      }
    }

    /**
     * `invokeTag`: a name in `_nonExistsTags` is skipped at once; a name that does not
     * resolve is remembered and skipped when `ignoreNonExistsTag` is set and is an error
     * otherwise; a resolved tag is called with the caller's parameters and body bound.
     */
    method InvokeTag(line: int, name: string, caller: Caller, params: Option<seq<Param>>,
                     body: Option<Body>, context: Option<Body>, ignoreNonExistsTag: bool,
                     loader: Loader)
      returns (r: Result<Option<TagCall>, TagError>)
      requires Valid()
      modifies this`nonExistsTags, this`tags
      ensures Valid()
      ensures tags == LookupRegistry(old(tags), name !in old(nonExistsTags) && InvokeReachesLoader(old(tags), name, caller),
                                     name, caller.cls, loader)
      ensures name in old(nonExistsTags) ==> r == Success(None) && nonExistsTags == old(nonExistsTags)
      ensures name !in old(nonExistsTags) && InvokeResolve(old(tags), name, caller, loader).None? ==>
                if ignoreNonExistsTag
                then r == Success(None) && nonExistsTags == old(nonExistsTags) + {name}
                else r == Failure(NullPointer("cannot find tag: " + name)) && nonExistsTags == old(nonExistsTags)
      ensures name !in old(nonExistsTags) && InvokeResolve(old(tags), name, caller, loader).Some? ==>
                nonExistsTags == old(nonExistsTags)
                && r == match SelectBody(body, params)
                        case Failure(e) => Failure(e)
                        case Success(b) =>
                          Success(Some(TagCall(InvokeResolve(old(tags), name, caller, loader).value,
                                               Arguments(InvokeResolve(old(tags), name, caller, loader).value, params, b),
                                               line, context)))
    {
      if name in nonExistsTags {
        return Success(None);
      }
      var tag := ResolveTag(name, caller, loader);
      if tag.None? {
        if ignoreNonExistsTag {
          nonExistsTags := nonExistsTags + {name};
          return Success(None);
        } else {
          return Failure(NullPointer("cannot find tag: " + name));
        }
      }
      var t := tag.value;
      var byName: map<string, Value> := map[];
      var byIndex: map<nat, Value> := map[];
      var paramList: Option<seq<Param>> := None;
      if params.Some? {
        if t.JavaTag? {
          paramList := params;
        } else {
          byName, byIndex := BindParams(params.value);
        }
      }
      var selected := SelectBody(body, params);
      if selected.Failure? {
        return Failure(selected.error);
      }
      if selected.value.Some? {
        var b := selected.value.value;
        byName := byName["__body" := BodyValue(b)]["_body" := BodyValue(b)];
      }
      return Success(Some(TagCall(t, RenderArgs(byName, byIndex, paramList), line, context)));
    }

    /**
     * `cache(key, o, ttl, args...)`: a no-op when caching is disabled; otherwise stores the
     * value (`""` for `null`) under the composite key.
     */
    method Cache(key: string, o: Option<string>, args: seq<string>)
      modifies this`cacheStore
      ensures !cacheEnabled ==> cacheStore == old(cacheStore)
      ensures cacheEnabled ==> cacheStore == old(cacheStore)[CacheKey(key, args) := o.GetOr("")]
    {
      if !cacheEnabled {
        return;
      }
      var value := if o.None? then "" else o.value;
      var k := BuildCacheKey(key, args);
      cacheStore := cacheStore[k := value];
    }

    /**
     * `cached(key, args...)`: `null` when caching is disabled; otherwise the entry under the
     * same composite key `cache` uses, so a `cached` call with the key and arguments of an
     * earlier `cache` call reads what that call stored.
     */
    method Cached(key: string, args: seq<string>) returns (r: Option<string>)
      ensures !cacheEnabled ==> r.None?
      ensures cacheEnabled ==> (r.Some? <==> CacheKey(key, args) in cacheStore)
      ensures r.Some? ==> r.value == cacheStore[CacheKey(key, args)]
    {
      if !cacheEnabled {
        return None;
      }
      var k := BuildCacheKey(key, args);
      r := if k in cacheStore then Some(cacheStore[k]) else None;
    }

    /**
     * `renderIfTemplateExists(template)`: a name known to be missing renders `""` at once; a
     * name without a template class is looked up as a resource, registered when valid and
     * otherwise remembered as missing.
     */
    method RenderIfTemplateExists(template: string, isValid: string -> bool) returns (r: RenderOutcome)
      modifies this`nonExistsTemplates, this`classes
      ensures template in old(nonExistsTemplates) ==>
                r == Skipped && nonExistsTemplates == old(nonExistsTemplates) && classes == old(classes)
      ensures template !in old(nonExistsTemplates) && template in old(classes) ==>
                r == Rendered(template) && nonExistsTemplates == old(nonExistsTemplates) && classes == old(classes)
      ensures template !in old(nonExistsTemplates) && template !in old(classes) && isValid(template) ==>
                r == Rendered(template) && nonExistsTemplates == old(nonExistsTemplates) && classes == old(classes) + {template}
      ensures template !in old(nonExistsTemplates) && template !in old(classes) && !isValid(template) ==>
                r == Skipped && nonExistsTemplates == old(nonExistsTemplates) + {template} && classes == old(classes)
    {
      if template in nonExistsTemplates {
        return Skipped;
      }
      var key := template;
      if template !in classes {
        if isValid(template) {
          classes := classes + {key};
        } else {
          nonExistsTemplates := nonExistsTemplates + {template};
          return Skipped;
        }
      }
      return Rendered(template);
    }

    /**
     * One sweep of the `NonExistsTemplatesChecker`: templates whose resource has become valid,
     * and tags the loader can now load for the first known template class, stop being missing;
     * each tag so loaded is registered.
     */
    method SweepNonExists(isValid: string -> bool, loader: Loader, first: TemplateClass)
      modifies this`nonExistsTemplates, this`nonExistsTags, this`tags
      ensures nonExistsTemplates == set t | t in old(nonExistsTemplates) && !isValid(t)
      ensures nonExistsTags == set t | t in old(nonExistsTags) && loader(t, first).None?
      ensures forall n | n in old(tags) :: n in tags && tags[n] == old(tags)[n]
      ensures forall t | t in old(nonExistsTags) && loader(t, first).Some? :: loader(t, first).value.cls.fullName in tags
      ensures forall n | n in tags && n !in old(tags) ::
                exists t :: t in old(nonExistsTags) && Registers(loader(t, first), n, tags[n])
    {
      var toBeRemoved: set<string> := {};
      var todo := nonExistsTemplates;
      while todo != {}
        invariant todo <= nonExistsTemplates
        invariant toBeRemoved == set t | t in nonExistsTemplates - todo && isValid(t)
        decreases todo
      {
        var template :| template in todo;
        if isValid(template) {
          toBeRemoved := toBeRemoved + {template};
        }
        todo := todo - {template};
      }
      nonExistsTemplates := nonExistsTemplates - toBeRemoved;
      toBeRemoved := {};
      todo := nonExistsTags;
      while todo != {}
        invariant todo <= nonExistsTags
        invariant nonExistsTemplates == set t | t in old(nonExistsTemplates) && !isValid(t)
        invariant nonExistsTags == old(nonExistsTags)
        invariant toBeRemoved == set t | t in nonExistsTags - todo && loader(t, first).Some?
        invariant forall n | n in old(tags) :: n in tags && tags[n] == old(tags)[n]
        invariant forall t | t in nonExistsTags - todo && loader(t, first).Some? :: loader(t, first).value.cls.fullName in tags
        invariant forall n | n in tags && n !in old(tags) ::
                    exists t :: t in nonExistsTags - todo && Registers(loader(t, first), n, tags[n])
        decreases todo
      {
        var tag :| tag in todo;
        tags := AfterLoad(tags, loader(tag, first));
        if loader(tag, first).Some? {
          toBeRemoved := toBeRemoved + {tag};
        }
        todo := todo - {tag};
      }
      nonExistsTags := nonExistsTags - toBeRemoved;
    }

    /** `addExtendRelationship(parent, child)`: records the edge, except in prod mode. */
    method AddExtendRelationship(parent: ClassRef, child: ClassRef)
      requires Valid()
      modifies this`extendMap
      ensures Valid()
      ensures prod ==> extendMap == old(extendMap)
      ensures !prod ==> extendMap == AddEdge(old(extendMap), parent, child)
    {
      if prod {
        return;
      }
      var children := if parent in extendMap then extendMap[parent] else {};
      extendMap := extendMap[parent := children + {child}];
    }

    /**
     * `invalidate(parent)`: outside prod mode, resets every descendant of `parent` through
     * `extendMap`, each one only after all of its own descendants, and nothing else. The
     * source has no guard against cycles; the model asks for a rank that every edge lowers.
     */
    method Invalidate(parent: ClassRef, ghost rank: map<ClassRef, nat>)
      requires Valid() && Ranked(extendMap, rank)
      modifies this`resetLog
      decreases if parent in rank then rank[parent] else 0
      ensures Valid()
      ensures |old(resetLog)| <= |resetLog| && resetLog[..|old(resetLog)|] == old(resetLog)
      ensures prod ==> resetLog == old(resetLog)
      ensures forall d :: d in resetLog[|old(resetLog)|..] <==> !prod && Reaches(extendMap, rank, parent, d)
      ensures PostOrder(extendMap, rank, resetLog, |old(resetLog)|)
    {
      if prod {
        return;
      }
      if parent !in extendMap {
        return;
      }
      var children := extendMap[parent];
      ghost var start := |resetLog|;
      WalkStart(extendMap, rank, parent, resetLog);
      var todo := children;
      while todo != {}
        invariant todo <= children
        invariant start <= |resetLog| && resetLog[..start] == old(resetLog)
        invariant WalkState(extendMap, rank, parent, children - todo, resetLog, start)
        decreases todo
      {
        var child :| child in todo;
        ghost var before := resetLog;
        Invalidate(child, rank);
        WalkStep(extendMap, rank, parent, children - todo, child, before, resetLog, start);
        assert children - (todo - {child}) == children - todo + {child};
        resetLog := resetLog + [child];
        todo := todo - {child};
      }
      assert children - todo == extendMap[parent];
      WalkDone(extendMap, rank, parent, resetLog, start);
    }

    /**
     * `restart()`: a no-op in prod mode; otherwise drops every template tag from the registry
     * and keeps the Java tags, first collecting the names and then removing them.
     */
    method Restart()
      requires Valid()
      modifies this`tags
      ensures Valid()
      ensures prod ==> tags == old(tags)
      ensures !prod ==> tags == JavaTagsOf(old(tags))
    {
      if prod {
        return;
      }
      var templateTags: seq<string> := [];
      var todo := tags.Keys;
      while todo != {}
        invariant todo <= tags.Keys
        invariant forall n :: n in templateTags <==> n in tags.Keys - todo && tags[n].TemplateTag?
        decreases todo
      {
        var name :| name in todo;
        if tags[name].TemplateTag? {
          templateTags := templateTags + [name];
        }
        todo := todo - {name};
      }
      var i := 0;
      while i < |templateTags|
        invariant 0 <= i <= |templateTags|
        invariant forall n :: n in tags <==> n in old(tags) && n !in templateTags[..i]
        invariant forall n :: n in tags ==> tags[n] == old(tags)[n]
      {
        assert templateTags[..i + 1] == templateTags[..i] + [templateTags[i]];
        tags := tags - {templateTags[i]};
        i := i + 1;
      }
      assert templateTags[..|templateTags|] == templateTags;
    }

    /**
     * `restart(cause)`: in prod mode the cause is rethrown and nothing is restarted; otherwise
     * the engine restarts as `Restart` describes.
     */
    method RestartOnError() returns (rethrown: bool)
      requires Valid()
      modifies this`tags
      ensures Valid()
      ensures rethrown <==> prod
      ensures rethrown ==> tags == old(tags)
      ensures !rethrown ==> tags == JavaTagsOf(old(tags))
    {
      if prod {
        return true;
      }
      Restart();
      return false;
    }

    /** `shutdown()`: empties the tag registry, the class registry and both negative tag caches. */
    method Shutdown()
      requires Valid()
      modifies this`tags, this`classes, this`nonExistsTags, this`nonTags
      ensures Valid()
      ensures tags == map[] && classes == {} && nonExistsTags == {} && nonTags == {}
    {
      tags := map[];
      classes := {};
      nonExistsTags := {};
      nonTags := {};
    }
  }
}

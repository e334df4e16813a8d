/**
 * Tags of the Rythm engine: the values kept in the engine's tag registry, the name
 * resolution rules of `testTag` and `invokeTag`, and how `invokeTag` binds the
 * caller's parameters and body onto the tag instance it calls.
 */
module Tags {
  import opened Wrappers
  import opened Strings

  /** A body block a caller hands to a tag (`ITag.__Body`); the model only tells bodies apart. */
  datatype Body = Body(id: nat)

  /** A render-argument value: `null`, a caller body, or any other object (by its string form). */
  datatype Value = Null | BodyValue(body: Body) | Plain(text: string)

  /**
   * A registered tag: a hand-written Java tag (a `JavaTagBase` subclass), or a tag compiled
   * from a template file, named by its generated class.
   */
  datatype Tag = JavaTag(impl: string) | TemplateTag(className: string)

  /** The parts of a `TemplateClass` that name resolution reads. */
  datatype TemplateClass = TemplateClass(fullName: string, importPaths: seq<string>)

  /** The engine's `_tags` map: fully-qualified tag name to tag prototype. */
  type Registry = map<string, Tag>

  /** What the on-demand loader produced: the template class it compiled and that class's tag. */
  datatype Loaded = Loaded(cls: TemplateClass, tag: Tag)

  /**
   * The on-demand tag loader `TemplateResourceManager.tryLoadTag(name, caller)`: the class it
   * compiled for `name` together with the tag it registered for it, or `None` for Java's `null`.
   */
  type Loader = (string, TemplateClass) -> Option<Loaded>

  /** `loaded` is a compiled tag `t` whose class's full name is `n`. */
  predicate Registers(loaded: Option<Loaded>, n: string, t: Tag) {
    loaded.Some? && loaded.value.cls.fullName == n && loaded.value.tag == t
  }

  /**
   * `_tags` after a loader call: a compiled tag is registered under its class's full name;
   * an entry already there is kept, as `registerTag` keeps it.
   */
  function AfterLoad(tags: Registry, loaded: Option<Loaded>): (r: Registry)
    ensures forall n | n in tags :: n in r && r[n] == tags[n]
    ensures loaded.Some? ==> loaded.value.cls.fullName in r
    ensures forall n | n in r && n !in tags :: Registers(loaded, n, r[n])
  {
    if loaded.Some? && loaded.value.cls.fullName !in tags
    then tags[loaded.value.cls.fullName := loaded.value.tag]
    else tags
  }

  /** `_tags` once a lookup has run: the loader ran, and registered what it compiled, only if reached. */
  function LookupRegistry(tags: Registry, reached: bool, name: string, cls: TemplateClass, loader: Loader): Registry {
    if reached then AfterLoad(tags, loader(name, cls)) else tags
  }

  /** The keyword a template uses to refer to itself as a tag. */
  const ThisKeyword: string := "this"

  /** `prefix + "." + name`. */
  function Qualify(prefix: string, name: string): string {
    prefix + "." + name
  }

  /** Index of the first import path `p` with `p.name` registered. */
  function FirstImport(tags: Registry, imports: seq<string>, name: string): (r: Option<nat>)
    ensures r.None? <==> forall j :: 0 <= j < |imports| ==> Qualify(imports[j], name) !in tags
    ensures r.Some? ==> r.value < |imports| && Qualify(imports[r.value], name) in tags
    ensures r.Some? ==> forall j :: 0 <= j < r.value ==> Qualify(imports[j], name) !in tags
  {
    if |imports| == 0 then None
    else if Qualify(imports[0], name) in tags then Some(0)
    else match FirstImport(tags, imports[1..], name)
      case None => None
      case Some(i) => Some(i + 1)
  }

  /** The registered name that the import-path step resolves to. */
  function ImportedName(tags: Registry, imports: seq<string>, name: string): (r: Option<string>)
    ensures r.None? <==> forall j :: 0 <= j < |imports| ==> Qualify(imports[j], name) !in tags
    ensures r.Some? ==> r.value in tags
    ensures r.Some? ==> exists i :: 0 <= i < |imports| && r.value == Qualify(imports[i], name)
                                    && forall j :: 0 <= j < i ==> Qualify(imports[j], name) !in tags
  {
    match FirstImport(tags, imports, name)
    case None => None
    case Some(i) => Some(Qualify(imports[i], name))
  }

  /** The namespace of a fully-qualified name: everything before its last dot. */
  function ParentNamespace(fullName: string): (r: Option<string>)
    ensures r.None? <==> '.' !in fullName
    ensures r.Some? ==> StartsWith(fullName, r.value + ".") && '.' !in fullName[|r.value| + 1..]
  {
    match LastIndexOf(fullName, '.')
    case None => None
    case Some(p) =>
      assert fullName[..p + 1] == fullName[..p] + ".";
      Some(fullName[..p])
  }

  /** The registered name that the caller's-namespace step resolves to. */
  function RelativeName(tags: Registry, callerName: string, name: string): (r: Option<string>)
    ensures r.Some? <==> ParentNamespace(callerName).Some? && Qualify(ParentNamespace(callerName).value, name) in tags
    ensures r.Some? ==> r.value == Qualify(ParentNamespace(callerName).value, name) && r.value in tags
  {
    match ParentNamespace(callerName)
    case None => None
    case Some(ns) => if Qualify(ns, name) in tags then Some(Qualify(ns, name)) else None
  }

  /**
   * What `testTag(name, tc)` answers: `this` names the caller; in prod mode a name in the
   * negative cache `_nonTags` is unknown; then an exact registered name, the import paths in
   * declared order, the caller's namespace, and last the loader's full name.
   */
  function TestTag(tags: Registry, nonTags: set<string>, prod: bool, name: string,
                   tc: TemplateClass, loader: Loader): (r: Option<string>)
    ensures name == ThisKeyword ==> r == Some(tc.fullName)
    ensures r.None? <==> name != ThisKeyword && ((prod && name in nonTags)
                           || (TestReachesLoader(tags, nonTags, prod, name, tc) && loader(name, tc).None?))
    ensures r.Some? && name != ThisKeyword ==>
              r.value in LookupRegistry(tags, TestReachesLoader(tags, nonTags, prod, name, tc), name, tc, loader)
  {
    if name == ThisKeyword then Some(tc.fullName)
    else if prod && name in nonTags then None
    else if name in tags then Some(name)
    else match ImportedName(tags, tc.importPaths, name)
      case Some(n) => Some(n)
      case None =>
        match RelativeName(tags, tc.fullName, name)
        case Some(n) => Some(n)
        case None =>
          match loader(name, tc)
          case Some(l) => Some(l.cls.fullName)
          case None => None
  }

  /** `testTag` falls through to the loader: no earlier step answers. */
  predicate TestReachesLoader(tags: Registry, nonTags: set<string>, prod: bool, name: string, tc: TemplateClass) {
    && name != ThisKeyword && !(prod && name in nonTags) && name !in tags
    && ImportedName(tags, tc.importPaths, name).None? && RelativeName(tags, tc.fullName, name).None?
  }

  /** `_nonTags` after `testTag`: a name the loader failed on is remembered in prod mode only. */
  function NonTagsAfterTest(tags: Registry, nonTags: set<string>, prod: bool, name: string,
                            tc: TemplateClass, loader: Loader): (r: set<string>)
    ensures r - {name} == nonTags - {name}
    ensures name in r <==> name in nonTags || (prod && TestReachesLoader(tags, nonTags, prod, name, tc) && loader(name, tc).None?)
  {
    if prod && name != ThisKeyword && name !in nonTags
       && TestTag(tags, nonTags, prod, name, tc, loader).None?
    then nonTags + {name}
    else nonTags
  }

  /** An exact registered name wins over every other rule (except `this` and the prod cache). */
  lemma ExactNameWins(tags: Registry, nonTags: set<string>, prod: bool, name: string,
                      tc: TemplateClass, loader: Loader)
    requires name != ThisKeyword && !(prod && name in nonTags) && name in tags
    ensures TestTag(tags, nonTags, prod, name, tc, loader) == Some(name)
  {
  }

  /**
   * An import alias wins over the caller's namespace: when `p.name` is registered for some
   * import path `p`, `testTag` answers the first such alias, whatever else is registered.
   */
  lemma ImportBeatsNamespace(tags: Registry, nonTags: set<string>, prod: bool, name: string,
                             tc: TemplateClass, loader: Loader, i: nat)
    requires name != ThisKeyword && !(prod && name in nonTags) && name !in tags
    requires i < |tc.importPaths| && Qualify(tc.importPaths[i], name) in tags
    ensures exists k :: 0 <= k <= i
              && TestTag(tags, nonTags, prod, name, tc, loader) == Some(Qualify(tc.importPaths[k], name))
              && forall j :: 0 <= j < k ==> Qualify(tc.importPaths[j], name) !in tags
  {
    var k := FirstImport(tags, tc.importPaths, name).value;
    assert TestTag(tags, nonTags, prod, name, tc, loader) == Some(Qualify(tc.importPaths[k], name));
  }

  /**
   * The prod-mode negative cache is sticky: once `testTag` has failed on a name in prod mode,
   * every later `testTag` on that name fails, whatever is registered by then, whoever the
   * caller is and whatever the loader would now find.
   */
  lemma NonTagIsSticky(tags: Registry, nonTags: set<string>, name: string, tc: TemplateClass,
                       loader: Loader, tags': Registry, tc': TemplateClass, loader': Loader)
    requires name != ThisKeyword && TestTag(tags, nonTags, true, name, tc, loader).None?
    ensures TestTag(tags', NonTagsAfterTest(tags, nonTags, true, name, tc, loader), true, name, tc', loader') == None
  {
  }

  /** In dev mode `testTag` never writes the negative cache. */
  lemma DevModeKeepsNonTags(tags: Registry, nonTags: set<string>, name: string,
                            tc: TemplateClass, loader: Loader)
    ensures NonTagsAfterTest(tags, nonTags, false, name, tc, loader) == nonTags
  {
  }

  /**
   * The last two steps of `testTag`: when no exact name and no import alias is registered, a
   * registered name in the caller's namespace answers; only when that fails too is the loader
   * asked, and the class it compiles answers.
   */
  lemma NamespaceThenLoader(tags: Registry, nonTags: set<string>, prod: bool, name: string,
                            tc: TemplateClass, loader: Loader)
    requires name != ThisKeyword && !(prod && name in nonTags) && name !in tags
    requires ImportedName(tags, tc.importPaths, name).None?
    ensures var ns := ParentNamespace(tc.fullName);
            ns.Some? && Qualify(ns.value, name) in tags ==> TestTag(tags, nonTags, prod, name, tc, loader) == Some(Qualify(ns.value, name))
    ensures TestReachesLoader(tags, nonTags, prod, name, tc) ==>
              TestTag(tags, nonTags, prod, name, tc, loader)
                == if loader(name, tc).Some? then Some(loader(name, tc).value.cls.fullName) else None
  {
  }

  /** The caller of `invokeTag`: its own tag name, its own tag prototype and its template class. */
  datatype Caller = Caller(name: string, self: Tag, cls: TemplateClass)

  /**
   * The tag `invokeTag` calls: an exact registered name, then the caller itself when the name
   * is the caller's own, then the import paths, the caller's namespace, and last the registry
   * entry under the full name of the class the loader compiled, read once the loader has
   * registered its tag.
   */
  function InvokeResolve(tags: Registry, name: string, caller: Caller, loader: Loader): (r: Option<Tag>)
    ensures r.None? <==> InvokeReachesLoader(tags, name, caller) && loader(name, caller.cls).None?
    ensures name in tags ==> r == Some(tags[name])
    ensures name !in tags && name == caller.name ==> r == Some(caller.self)
    ensures r.Some? && r != Some(caller.self) ==>
              exists n :: n in LookupRegistry(tags, InvokeReachesLoader(tags, name, caller), name, caller.cls, loader)
                          && LookupRegistry(tags, InvokeReachesLoader(tags, name, caller), name, caller.cls, loader)[n] == r.value
  {
    var after := LookupRegistry(tags, InvokeReachesLoader(tags, name, caller), name, caller.cls, loader);
    if name in tags then
      assert name in after && after[name] == tags[name];
      Some(tags[name])
    else if name == caller.name then Some(caller.self)
    else match ImportedName(tags, caller.cls.importPaths, name)
      case Some(n) =>
        assert n in after && after[n] == tags[n];
        Some(tags[n])
      case None =>
        match RelativeName(tags, caller.cls.fullName, name)
        case Some(n) =>
          assert n in after && after[n] == tags[n];
          Some(tags[n])
        case None =>
          match loader(name, caller.cls)
          case Some(l) =>
            assert l.cls.fullName in after && after[l.cls.fullName] == AfterLoad(tags, Some(l))[l.cls.fullName];
            Some(AfterLoad(tags, Some(l))[l.cls.fullName])
          case None => None
  }

  /** `invokeTag` falls through to the loader: no earlier step answers. */
  predicate InvokeReachesLoader(tags: Registry, name: string, caller: Caller) {
    && name !in tags && name != caller.name
    && ImportedName(tags, caller.cls.importPaths, name).None?
    && RelativeName(tags, caller.cls.fullName, name).None?
  }

  /**
   * `testTag` and `invokeTag` agree: outside the two places where their rules differ (the
   * `this` keyword and the prod cache of `testTag`, the self-call of `invokeTag`), both reach
   * the loader in the same cases, and `invokeTag` calls a tag exactly when `testTag` names
   * one, namely the tag registered under that name once the lookup has run.
   */
  lemma TestAndInvokeAgree(tags: Registry, nonTags: set<string>, prod: bool, name: string,
                           caller: Caller, loader: Loader)
    requires name != ThisKeyword && !(prod && name in nonTags)
    requires name in tags || name != caller.name
    ensures TestReachesLoader(tags, nonTags, prod, name, caller.cls) == InvokeReachesLoader(tags, name, caller)
    ensures var t := TestTag(tags, nonTags, prod, name, caller.cls, loader);
            var after := LookupRegistry(tags, InvokeReachesLoader(tags, name, caller), name, caller.cls, loader);
            InvokeResolve(tags, name, caller, loader)
              == if t.Some? && t.value in after then Some(after[t.value]) else None
  {
    if name !in tags {
      var imp := ImportedName(tags, caller.cls.importPaths, name);
      if imp.None? {
        var rel := RelativeName(tags, caller.cls.fullName, name);
        if rel.None? {
          match loader(name, caller.cls)
          case Some(l) =>
          case None =>
        }
      }
    }
  }

  /** One entry of `ITag.__ParameterList`: an optional name and a value. */
  datatype Param = Param(name: Option<string>, value: Value)

  /** Index of the last parameter called `n`: the one whose value a by-name binding keeps. */
  function LastNamed(params: seq<Param>, n: string): (r: Option<nat>)
    ensures r.None? <==> forall i :: 0 <= i < |params| ==> params[i].name != Some(n)
    ensures r.Some? ==> r.value < |params| && params[r.value].name == Some(n)
    ensures r.Some? ==> forall i :: r.value < i < |params| ==> params[i].name != Some(n)
  {
    if |params| == 0 then None
    else if params[|params| - 1].name == Some(n) then Some(|params| - 1)
    else LastNamed(params[..|params| - 1], n)
  }

  /** Index of the first parameter called `n`: the one `__ParameterList.getByName` returns. */
  function FirstNamed(params: seq<Param>, n: string): (r: Option<nat>)
    ensures r.None? <==> forall i :: 0 <= i < |params| ==> params[i].name != Some(n)
    ensures r.Some? ==> r.value < |params| && params[r.value].name == Some(n)
    ensures r.Some? ==> forall i :: 0 <= i < r.value ==> params[i].name != Some(n)
  {
    if |params| == 0 then None
    else if params[0].name == Some(n) then Some(0)
    else match FirstNamed(params[1..], n)
      case None => None
      case Some(i) => Some(i + 1)
  }

  /**
   * Named parameters bound one after another with `__setRenderArg(name, value)`: each name
   * ends up holding the value of the last parameter with that name.
   */
  function BindByName(params: seq<Param>): (m: map<string, Value>)
    ensures forall n :: n in m <==> LastNamed(params, n).Some?
    ensures forall n :: n in m ==> m[n] == params[LastNamed(params, n).value].value
  {
    if |params| == 0 then map[]
    else
      var init := params[..|params| - 1];
      var last := params[|params| - 1];
      assert forall n :: LastNamed(params, n) == if last.name == Some(n) then Some(|params| - 1) else LastNamed(init, n);
      match last.name
      case Some(n) => BindByName(init)[n := last.value]
      case None => BindByName(init)
  }

  /** Unnamed parameters bound by their position in the list with `__setRenderArg(i, value)`. */
  function BindByIndex(params: seq<Param>): (m: map<nat, Value>)
    ensures forall i: nat :: i in m <==> i < |params| && params[i].name.None?
    ensures forall i: nat :: i in m ==> i < |params| && m[i] == params[i].value
  {
    if |params| == 0 then map[]
    else
      var init := params[..|params| - 1];
      var last := params[|params| - 1];
      if last.name.None? then BindByIndex(init)[|params| - 1 := last.value] else BindByIndex(init)
  }

  /** The render arguments a tag instance holds when it is called. */
  datatype RenderArgs = RenderArgs(byName: map<string, Value>, byIndex: map<nat, Value>,
                                   paramList: Option<seq<Param>>)

  /** Why an invocation is refused. */
  datatype TagError =
    | NullPointer(message: string)       // `NullPointerException`
    | ClassCast(paramName: string)       // a `__body`/`_body` parameter that is not a body

  /**
   * The body `invokeTag` binds: the one passed in; else the value of parameter `__body`,
   * else of `_body`. A non-body value there fails the `(ITag.__Body)` cast.
   */
  function SelectBody(body: Option<Body>, params: Option<seq<Param>>): (r: Result<Option<Body>, TagError>)
    ensures body.Some? ==> r == Success(body)
    ensures params.None? ==> r == Success(body)
    ensures body.None? && params.Some? && ByName(params.value, "__body") != Success(None) ==>
              r == ByName(params.value, "__body")
    ensures body.None? && params.Some? && ByName(params.value, "__body") == Success(None) ==>
              r == ByName(params.value, "_body")
    ensures r.Success? && r.value.Some? && body.None? ==>
              exists i :: 0 <= i < |params.value| && params.value[i].value == BodyValue(r.value.value)
                          && params.value[i].name in {Some("__body"), Some("_body")}
  {
    if body.Some? || params.None? then Success(body)
    else
      var ps := params.value;
      match ByName(ps, "__body")
      case Failure(e) => Failure(e)
      case Success(Some(b)) => Success(Some(b))
      case Success(None) => ByName(ps, "_body")
  }

  /** `(ITag.__Body) params.getByName(n)`. */
  function ByName(ps: seq<Param>, n: string): (r: Result<Option<Body>, TagError>)
    ensures FirstNamed(ps, n).None? ==> r == Success(None)
    ensures FirstNamed(ps, n).Some? && ps[FirstNamed(ps, n).value].value.Null? ==> r == Success(None)
    ensures FirstNamed(ps, n).Some? && ps[FirstNamed(ps, n).value].value.BodyValue? ==>
              r == Success(Some(ps[FirstNamed(ps, n).value].value.body))
    ensures FirstNamed(ps, n).Some? && ps[FirstNamed(ps, n).value].value.Plain? ==> r == Failure(ClassCast(n))
    ensures r.Success? && r.value.Some? ==>
              exists i :: 0 <= i < |ps| && ps[i].name == Some(n) && ps[i].value == BodyValue(r.value.value)
  {
    match FirstNamed(ps, n)
    case None => Success(None)
    case Some(i) =>
      match ps[i].value
      case Null => Success(None)
      case BodyValue(b) => Success(Some(b))
      case Plain(_) => Failure(ClassCast(n))
  }

  /**
   * The render arguments of the tag instance `invokeTag` calls: a Java tag receives the
   * parameter list whole, a template tag binds named parameters by name and the others by
   * index; a selected body is bound under both `__body` and `_body`.
   */
  function Arguments(tag: Tag, params: Option<seq<Param>>, body: Option<Body>): (a: RenderArgs)
    ensures body.Some? ==> "__body" in a.byName && a.byName["__body"] == BodyValue(body.value)
    ensures body.Some? ==> "_body" in a.byName && a.byName["_body"] == BodyValue(body.value)
    ensures a.paramList.Some? <==> tag.JavaTag? && params.Some?
    ensures a.paramList.Some? ==> a.paramList == params
    ensures forall i: nat :: i in a.byIndex <==> tag.TemplateTag? && params.Some? && i < |params.value| && params.value[i].name.None?
    ensures forall n :: n in a.byName ==>
              (body.Some? && (n == "__body" || n == "_body")) || (tag.TemplateTag? && params.Some? && LastNamed(params.value, n).Some?)
    ensures tag.TemplateTag? && params.Some? ==>
              forall n :: LastNamed(params.value, n).Some? && (body.None? || (n != "__body" && n != "_body")) ==>
                n in a.byName && a.byName[n] == params.value[LastNamed(params.value, n).value].value
    ensures tag.TemplateTag? && params.Some? ==>
              forall i: nat :: i < |params.value| && params.value[i].name.None? ==>
                i in a.byIndex && a.byIndex[i] == params.value[i].value
  {
    var named := if tag.TemplateTag? && params.Some? then BindByName(params.value) else map[];
    var indexed := if tag.TemplateTag? && params.Some? then BindByIndex(params.value) else map[];
    assert "__body" != "_body" by { assert |"__body"| != |"_body"|; }
    var withBody := if body.Some? then named["__body" := BodyValue(body.value)]["_body" := BodyValue(body.value)] else named;
    RenderArgs(withBody, indexed, if tag.JavaTag? then params else None)
  }

  /** One call of a tag: the prototype that was resolved and what its fresh instance receives. */
  datatype TagCall = TagCall(tag: Tag, args: RenderArgs, line: int, context: Option<Body>)
}

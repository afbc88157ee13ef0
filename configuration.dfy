/**
 * The ORM's Configuration: a registry of settings with defaults, lookups
 * of entity namespaces and named queries that fail on an unknown name,
 * registration of custom DQL functions that refuses the parser's built-in
 * functions, custom hydration modes, and the check of production settings.
 * Caches, drivers, strategies and result set mappings are collaborators the
 * registry only stores, so they are tokens here.
 */
module OrmConfiguration {
  import opened Wrappers
  import opened Strings

  /** A collaborator object the configuration only stores, known by its identity. */
  datatype Token = Token(id: nat)

  /** A cache driver: the in-memory ArrayCache, or any driver that persists its entries. */
  datatype CacheDriver = ArrayCache | PersistentCache(id: nat)

  const ArrayCacheClass := "Doctrine\\Common\\Cache\\ArrayCache"

  /** A strategy or resolver: the one the configuration creates by default, or one supplied by the caller. */
  datatype Service = DefaultService(className: string) | Supplied(token: Token)

  const DefaultNamingStrategy := DefaultService("Doctrine\\ORM\\Mapping\\DefaultNamingStrategy")
  const DefaultQuoteStrategy := DefaultService("Doctrine\\ORM\\Mapping\\DefaultQuoteStrategy")
  const DefaultEntityListenerResolver := DefaultService("Doctrine\\ORM\\Mapping\\DefaultEntityListenerResolver")
  const DefaultClassMetadataFactoryName := "Doctrine\\ORM\\Mapping\\ClassMetadataFactory"
  const DefaultRepositoryClassName := "Doctrine\\ORM\\EntityRepository"

  // ---------------------------------------------------------------------
  // Proxy generation modes (the AUTOGENERATE_* constants of the proxy factory)

  const AutogenerateNever := 0
  const AutogenerateAlways := 1
  const AutogenerateFileNotExists := 2
  const AutogenerateEval := 3

  /** The argument of setAutoGenerateProxyClasses: a boolean or one of the integer modes. */
  datatype AutoGenerateArgument = Flag(flag: bool) | Mode(mode: int)

  /** The (int) cast the setter applies: false is NEVER, true is ALWAYS, an integer is kept. */
  function AutoGenerateMode(a: AutoGenerateArgument): (r: int)
    ensures a.Flag? ==> (r == AutogenerateNever <==> !a.flag) && (r == AutogenerateAlways <==> a.flag)
    ensures a.Mode? ==> r == a.mode
  {
    match a
    case Flag(b) => if b then 1 else 0
    case Mode(m) => m
  }

  // ---------------------------------------------------------------------
  // The DQL parser's built-in functions

  const StringFunctionNames: set<string> := {"concat", "substring", "trim", "lower", "upper", "identity"}
  const NumericFunctionNames: set<string> :=
    {"length", "locate", "abs", "sqrt", "mod", "size", "date_diff", "bit_and", "bit_or"}
  const DatetimeFunctionNames: set<string> :=
    {"current_date", "current_time", "current_timestamp", "date_add", "date_sub"}

  /** A name of a built-in function of any of the three kinds, in any letter case. */
  predicate IsInternalFunction(name: string)
  {
    var n := Lower(name);
    n in StringFunctionNames || n in NumericFunctionNames || n in DatetimeFunctionNames
  }

  datatype FunctionKind = StringFunction | NumericFunction | DatetimeFunction

  /** The built-in names all start with one of these letters, so a name starting with any other letter is free. */
  const BuiltInInitials: set<char> := {'a', 'b', 'c', 'd', 'i', 'l', 'm', 's', 't', 'u'}

  lemma NotInternalByInitial(name: string)
    requires |name| > 0 && LowerChar(name[0]) !in BuiltInInitials
    ensures !IsInternalFunction(name)
  {
    var n := Lower(name);
    assert n[0] !in BuiltInInitials;
    forall f | f in StringFunctionNames || f in NumericFunctionNames || f in DatetimeFunctionNames
      ensures n != f
    {
      assert f[0] in BuiltInInitials;
    }
  }

  /** Errors the configuration raises. */
  datatype ConfigError =
    | UnknownEntityNamespace(alias: string)
    | NamedQueryNotFound(queryName: string)
    | NamedNativeQueryNotFound(nativeQueryName: string)
    | InternalFunctionOverwrite(functionName: string)
    | QueryCacheNotConfigured
    | QueryCacheNonPersistent(queryCacheClass: string)
    | MetadataCacheNotConfigured
    | MetadataCacheNonPersistent(metadataCacheClass: string)
    | ProxyClassesAlwaysRegenerating
    | InvalidEntityRepository(repositoryClass: string)

  /** The messages of the errors ensureProductionSettings raises. */
  function ProductionMessage(e: ConfigError): (r: Option<string>)
    ensures r.Some? <==> (e.QueryCacheNotConfigured? || e.QueryCacheNonPersistent? || e.MetadataCacheNotConfigured?
                          || e.MetadataCacheNonPersistent? || e.ProxyClassesAlwaysRegenerating?)
  {
    match e
    case QueryCacheNotConfigured => Some("Query Cache is not configured.")
    case QueryCacheNonPersistent(c) => Some("Query Cache uses a non-persistent cache driver, " + c + ".")
    case MetadataCacheNotConfigured => Some("Metadata Cache is not configured.")
    case MetadataCacheNonPersistent(c) => Some("Metadata Cache uses a non-persistent cache driver, " + c + ".")
    case ProxyClassesAlwaysRegenerating => Some("Proxy Classes are always regenerating.")
    case _ => None
  }

  // ---------------------------------------------------------------------
  // Filling a map from an ordered array of entries

  /** The map after assigning every entry in order: a later entry for a key overwrites an earlier one. */
  function Assigned(m: map<string, string>, entries: seq<(string, string)>): map<string, string>
    decreases |entries|
  {
    if |entries| == 0 then m else Assigned(m[entries[0].0 := entries[0].1], entries[1..])
  }

  /** An entry that the rest of the array does not overwrite. */
  ghost predicate LastFor(entries: seq<(string, string)>, i: int)
  {
    0 <= i < |entries| && forall j :: i < j < |entries| ==> entries[j].0 != entries[i].0
  }

  /** Assigning the entries: the keys are the old keys and the entries' keys; each key takes its last entry's value, and other keys keep theirs. */
  lemma {:induction false} AssignedLookup(m: map<string, string>, entries: seq<(string, string)>)
    ensures forall k :: k in Assigned(m, entries) <==> k in m || exists i :: 0 <= i < |entries| && entries[i].0 == k
    ensures forall i :: LastFor(entries, i) ==> Assigned(m, entries)[entries[i].0] == entries[i].1
    ensures forall k :: k in m && (forall i :: 0 <= i < |entries| ==> entries[i].0 != k) ==> Assigned(m, entries)[k] == m[k]
    decreases |entries|
  {
    if |entries| > 0 {
      var rest := entries[1..];
      var m1 := m[entries[0].0 := entries[0].1];
      AssignedLookup(m1, rest);
      assert forall i :: 1 <= i < |entries| ==> entries[i] == rest[i - 1];
      forall k | k in Assigned(m, entries)
        ensures k in m || exists i :: 0 <= i < |entries| && entries[i].0 == k
      {
        if k !in m1 {
          var i :| 0 <= i < |rest| && rest[i].0 == k;
          assert entries[i + 1].0 == k;
        } else if k !in m {
          assert entries[0].0 == k;
        }
      }
      forall k | k in m || exists i :: 0 <= i < |entries| && entries[i].0 == k
        ensures k in Assigned(m, entries)
      {
        if k !in m1 {
          var i :| 0 <= i < |entries| && entries[i].0 == k;
          assert i > 0;
          assert rest[i - 1].0 == k;
        }
      }
      forall i | LastFor(entries, i)
        ensures Assigned(m, entries)[entries[i].0] == entries[i].1
      {
        if i == 0 {
          assert forall j :: 0 <= j < |rest| ==> rest[j].0 != entries[0].0;
        } else {
          assert LastFor(rest, i - 1);
        }
      }
    }
  }

  /** Custom function names are stored lower-cased; the result keeps the map's keys and adds the lower-cased names. */
  function LowerKeys(entries: seq<(string, string)>): (r: seq<(string, string)>)
    ensures |r| == |entries|
    ensures forall i :: 0 <= i < |r| ==> r[i] == (Lower(entries[i].0), entries[i].1)
  {
    if |entries| == 0 then [] else [(Lower(entries[0].0), entries[0].1)] + LowerKeys(entries[1..])
  }

  /**
   * Registering custom functions one after another: each name is
   * lower-cased and stored, until a built-in name raises; the entries
   * before it stay registered.
   */
  function RegisterAll(m: map<string, string>, entries: seq<(string, string)>): (map<string, string>, Option<ConfigError>)
    decreases |entries|
  {
    if |entries| == 0 then (m, None)
    else if IsInternalFunction(entries[0].0) then (m, Some(InternalFunctionOverwrite(entries[0].0)))
    else RegisterAll(m[Lower(entries[0].0) := entries[0].1], entries[1..])
  }

  /**
   * Registration fails exactly when some name is built in, and then names
   * the first one; registration that succeeds is assigning the entries
   * under their lower-cased names.
   */
  lemma {:induction false} RegisterAllOutcome(m: map<string, string>, entries: seq<(string, string)>)
    ensures RegisterAll(m, entries).1.None? <==> forall i :: 0 <= i < |entries| ==> !IsInternalFunction(entries[i].0)
    ensures RegisterAll(m, entries).1.Some? ==> exists i :: (0 <= i < |entries| && IsInternalFunction(entries[i].0)
      && (forall j :: 0 <= j < i ==> !IsInternalFunction(entries[j].0))
      && RegisterAll(m, entries).1.value == InternalFunctionOverwrite(entries[i].0))
    ensures RegisterAll(m, entries).1.None? ==> RegisterAll(m, entries).0 == Assigned(m, LowerKeys(entries))
    decreases |entries|
  {
    if |entries| > 0 && !IsInternalFunction(entries[0].0) {
      var rest := entries[1..];
      RegisterAllOutcome(m[Lower(entries[0].0) := entries[0].1], rest);
      assert forall i :: 1 <= i < |entries| ==> entries[i] == rest[i - 1];
      if RegisterAll(m, entries).1.Some? {
        var i :| 0 <= i < |rest| && IsInternalFunction(rest[i].0)
          && (forall j :: 0 <= j < i ==> !IsInternalFunction(rest[j].0))
          && RegisterAll(m, entries).1.value == InternalFunctionOverwrite(rest[i].0);
        assert IsInternalFunction(entries[i + 1].0);
        forall j | 0 <= j < i + 1
          ensures !IsInternalFunction(entries[j].0)
        {
          if j > 0 {
            assert entries[j] == rest[j - 1];
          }
        }
      }
    }
    if RegisterAll(m, entries).1.None? {
      RegisterAllFree(m, entries);
    }
  }

  /** Without built-in names, registration is assigning the lower-cased entries and raises nothing. */
  lemma {:induction false} RegisterAllFree(m: map<string, string>, entries: seq<(string, string)>)
    requires forall i :: 0 <= i < |entries| ==> !IsInternalFunction(entries[i].0)
    ensures RegisterAll(m, entries) == (Assigned(m, LowerKeys(entries)), None)
    decreases |entries|
  {
    if |entries| > 0 {
      var rest := entries[1..];
      assert forall i :: 0 <= i < |rest| ==> rest[i] == entries[i + 1];
      RegisterAllFree(m[Lower(entries[0].0) := entries[0].1], rest);
      assert LowerKeys(entries)[1..] == LowerKeys(rest);
    }
  }

  /** After registering built-in-free entries on an empty map, exactly their lower-cased names are registered. */
  lemma RegisteredNames(entries: seq<(string, string)>)
    requires forall i :: 0 <= i < |entries| ==> !IsInternalFunction(entries[i].0)
    ensures RegisterAll(map[], entries).1.None?
    ensures forall k :: k in RegisterAll(map[], entries).0 <==> exists i :: 0 <= i < |entries| && Lower(entries[i].0) == k
  {
    RegisterAllFree(map[], entries);
    AssignedLowerNames(entries);
  }

  lemma AssignedLowerNames(entries: seq<(string, string)>)
    ensures forall k :: k in Assigned(map[], LowerKeys(entries)) <==> exists i :: 0 <= i < |entries| && Lower(entries[i].0) == k
  {
    var l := LowerKeys(entries);
    var r := Assigned(map[], l);
    AssignedNames(l);
    forall k
      ensures k in r <==> exists i :: 0 <= i < |entries| && Lower(entries[i].0) == k
    {
      if k in r {
        var i :| 0 <= i < |l| && l[i].0 == k;
        assert Lower(entries[i].0) == k;
      }
      if exists i :: 0 <= i < |entries| && Lower(entries[i].0) == k {
        var i :| 0 <= i < |entries| && Lower(entries[i].0) == k;
        assert l[i].0 == k;
      }
    }
  }

  lemma AssignedNames(l: seq<(string, string)>)
    ensures forall k :: k in Assigned(map[], l) <==> exists i :: 0 <= i < |l| && l[i].0 == k
  {
    AssignedLookup(map[], l);
  }

  /** The class registered for a name is that of its last entry, whatever the letter case of the later entries. */
  lemma RegisteredLookup(entries: seq<(string, string)>, i: int)
    requires forall j :: 0 <= j < |entries| ==> !IsInternalFunction(entries[j].0)
    requires 0 <= i < |entries|
    requires forall j :: i < j < |entries| ==> Lower(entries[j].0) != Lower(entries[i].0)
    ensures Lower(entries[i].0) in RegisterAll(map[], entries).0
    ensures RegisterAll(map[], entries).0[Lower(entries[i].0)] == entries[i].1
  {
    RegisterAllFree(map[], entries);
    var l := LowerKeys(entries);
    AssignedLookup(map[], l);
    assert LastFor(l, i);
  }

  /** Keys of a custom-function map are lower-case names that are not built in. */
  ghost predicate CanonicalFunctions(m: map<string, string>)
  {
    forall k :: k in m ==> Lower(k) == k && !IsInternalFunction(k)
  }

  /** Registration keeps a custom-function map canonical, whether it stops early or not. */
  lemma {:induction false} RegisterAllCanonical(m: map<string, string>, entries: seq<(string, string)>)
    requires CanonicalFunctions(m)
    ensures CanonicalFunctions(RegisterAll(m, entries).0)
    decreases |entries|
  {
    if |entries| > 0 && !IsInternalFunction(entries[0].0) {
      var n := entries[0].0;
      LowerIdempotent(n);
      RegisterAllCanonical(m[Lower(n) := entries[0].1], entries[1..]);
    }
  }

  lemma LowerIdempotent(s: string)
    ensures Lower(Lower(s)) == Lower(s)
  {
  }

  // ---------------------------------------------------------------------
  // The registry

  /** Everything a Configuration holds, as one value. */
  datatype ConfigView = ConfigView(
    proxyDir: Option<string>,
    proxyNamespace: Option<string>,
    autoGenerate: Option<int>,
    metadataDriver: Option<Token>,
    queryCache: Option<CacheDriver>,
    hydrationCache: Option<CacheDriver>,
    metadataCache: Option<CacheDriver>,
    secondLevelCache: Option<Token>,
    entityNamespaces: map<string, string>,
    namedQueries: map<string, string>,
    namedNativeQueries: map<string, (string, Token)>,
    stringFunctions: map<string, string>,
    numericFunctions: map<string, string>,
    datetimeFunctions: map<string, string>,
    hydrationModes: map<string, string>,
    filters: map<string, string>,
    classMetadataFactoryName: string,
    repositoryClassName: string,
    namingStrategy: Service,
    quoteStrategy: Service,
    entityListenerResolver: Service)

  /** The custom functions of one kind in a view. */
  function FunctionsOf(v: ConfigView, kind: FunctionKind): map<string, string>
  {
    match kind
    case StringFunction => v.stringFunctions
    case NumericFunction => v.numericFunctions
    case DatetimeFunction => v.datetimeFunctions
  }

  /** The view with the custom functions of one kind replaced and everything else as it was. */
  function WithFunctions(v: ConfigView, kind: FunctionKind, m: map<string, string>): (r: ConfigView)
    ensures FunctionsOf(r, kind) == m
    ensures forall k :: k != kind ==> FunctionsOf(r, k) == FunctionsOf(v, k)
    ensures r.(stringFunctions := v.stringFunctions, numericFunctions := v.numericFunctions,
               datetimeFunctions := v.datetimeFunctions) == v
  {
    match kind
    case StringFunction => v.(stringFunctions := m)
    case NumericFunction => v.(numericFunctions := m)
    case DatetimeFunction => v.(datetimeFunctions := m)
  }

  /** getAutoGenerateProxyClasses: the mode set last, ALWAYS when none was set. */
  function AutoGenerateOf(v: ConfigView): (r: int)
    ensures v.autoGenerate.None? ==> r == AutogenerateAlways
    ensures v.autoGenerate.Some? ==> r == v.autoGenerate.value
  {
    if v.autoGenerate.Some? then v.autoGenerate.value else AutogenerateAlways
  }

  /** The settings a production deployment needs: both caches set and persistent, and no proxy generation at run time. */
  ghost predicate ProductionReady(v: ConfigView)
  {
    && v.queryCache.Some? && v.queryCache.value != ArrayCache
    && v.metadataCache.Some? && v.metadataCache.value != ArrayCache
    && AutoGenerateOf(v) == AutogenerateNever
  }

  /**
   * ensureProductionSettings: the checks run in order (query cache set,
   * query cache persistent, metadata cache set, metadata cache persistent,
   * proxies never generated) and the first that fails is the error.
   */
  function ProductionCheck(v: ConfigView): (r: Option<ConfigError>)
    ensures r.None? <==> ProductionReady(v)
    ensures r == Some(QueryCacheNotConfigured) <==> v.queryCache.None?
    ensures r == Some(QueryCacheNonPersistent(ArrayCacheClass)) <==> v.queryCache == Some(ArrayCache)
    ensures r == Some(MetadataCacheNotConfigured) <==>
      v.queryCache.Some? && v.queryCache.value != ArrayCache && v.metadataCache.None?
    ensures r == Some(MetadataCacheNonPersistent(ArrayCacheClass)) <==>
      v.queryCache.Some? && v.queryCache.value != ArrayCache && v.metadataCache == Some(ArrayCache)
    ensures r == Some(ProxyClassesAlwaysRegenerating) <==>
      v.queryCache.Some? && v.queryCache.value != ArrayCache && v.metadataCache.Some?
      && v.metadataCache.value != ArrayCache && AutoGenerateOf(v) != AutogenerateNever
    ensures r.Some? ==> ProductionMessage(r.value).Some?
  {
    if v.queryCache.None? then Some(QueryCacheNotConfigured)
    else if v.queryCache.value == ArrayCache then Some(QueryCacheNonPersistent(ArrayCacheClass))
    else if v.metadataCache.None? then Some(MetadataCacheNotConfigured)
    else if v.metadataCache.value == ArrayCache then Some(MetadataCacheNonPersistent(ArrayCacheClass))
    else if AutoGenerateOf(v) != AutogenerateNever then Some(ProxyClassesAlwaysRegenerating)
    else None
  }

  /** The defaults of a new Configuration. */
  function DefaultView(): ConfigView
  {
    ConfigView(None, None, None, None, None, None, None, None, map[], map[], map[], map[], map[], map[], map[], map[],
               DefaultClassMetadataFactoryName, DefaultRepositoryClassName,
               DefaultNamingStrategy, DefaultQuoteStrategy, DefaultEntityListenerResolver)
  }

  class Configuration {
    var proxyDir: Option<string>
    var proxyNamespace: Option<string>
    var autoGenerate: Option<int>
    var metadataDriver: Option<Token>
    var queryCache: Option<CacheDriver>
    var hydrationCache: Option<CacheDriver>
    var metadataCache: Option<CacheDriver>
    var secondLevelCache: Option<Token>
    var entityNamespaces: map<string, string>
    var namedQueries: map<string, string>
    var namedNativeQueries: map<string, (string, Token)>
    var stringFunctions: map<string, string>
    var numericFunctions: map<string, string>
    var datetimeFunctions: map<string, string>
    var hydrationModes: map<string, string>
    var filters: map<string, string>
    var classMetadataFactoryName: string
    var repositoryClassName: string
    var namingStrategy: Service
    var quoteStrategy: Service
    var entityListenerResolver: Service

    function View(): ConfigView
      reads this
    {
      ConfigView(proxyDir, proxyNamespace, autoGenerate, metadataDriver, queryCache, hydrationCache, metadataCache,
                 secondLevelCache, entityNamespaces, namedQueries, namedNativeQueries, stringFunctions,
                 numericFunctions, datetimeFunctions, hydrationModes, filters, classMetadataFactoryName,
                 repositoryClassName, namingStrategy, quoteStrategy, entityListenerResolver)
    }

    /** Custom function names are stored lower-cased and are never names of built-in functions. */
    ghost predicate Valid()
      reads this
    {
      CanonicalFunctions(stringFunctions) && CanonicalFunctions(numericFunctions) && CanonicalFunctions(datetimeFunctions)
    }

    /** A new configuration: nothing set, proxies always generated, the default factory, repository and strategies. */
    constructor ()
      ensures Valid()
      ensures View() == DefaultView()
      ensures AutoGenerateOf(View()) == AutogenerateAlways
    {
      proxyDir := None;
      proxyNamespace := None;
      autoGenerate := None;
      metadataDriver := None;
      queryCache := None;
      hydrationCache := None;
      metadataCache := None;
      secondLevelCache := None;
      entityNamespaces := map[];
      namedQueries := map[];
      namedNativeQueries := map[];
      stringFunctions := map[];
      numericFunctions := map[];
      datetimeFunctions := map[];
      hydrationModes := map[];
      filters := map[];
      classMetadataFactoryName := DefaultClassMetadataFactoryName;
      repositoryClassName := DefaultRepositoryClassName;
      namingStrategy := DefaultNamingStrategy;
      quoteStrategy := DefaultQuoteStrategy;
      entityListenerResolver := DefaultEntityListenerResolver;
    }

    // -------------------------------------------------------------------
    // Plain settings: the getter returns what the setter stored

    method SetProxyDir(dir: string)
      requires Valid()
      modifies this
      ensures Valid() && View() == old(View()).(proxyDir := Some(dir))
    {
      proxyDir := Some(dir);
    }

    method SetProxyNamespace(ns: string)
      requires Valid()
      modifies this
      ensures Valid() && View() == old(View()).(proxyNamespace := Some(ns))
    {
      proxyNamespace := Some(ns);
    }

    /** setAutoGenerateProxyClasses: stores the argument cast to an integer mode. */
    method SetAutoGenerateProxyClasses(a: AutoGenerateArgument)
      requires Valid()
      modifies this
      ensures Valid() && View() == old(View()).(autoGenerate := Some(AutoGenerateMode(a)))
      ensures AutoGenerateProxyClasses() == AutoGenerateMode(a)
    {
      autoGenerate := Some(AutoGenerateMode(a));
    }

    /** getAutoGenerateProxyClasses */
    function AutoGenerateProxyClasses(): (r: int)
      reads this
      ensures r == AutoGenerateOf(View())
    {
      if autoGenerate.Some? then autoGenerate.value else AutogenerateAlways
    }

    method SetMetadataDriverImpl(driver: Token)
      requires Valid()
      modifies this
      ensures Valid() && View() == old(View()).(metadataDriver := Some(driver))
    {
      metadataDriver := Some(driver);
    }

    method SetQueryCacheImpl(c: CacheDriver)
      requires Valid()
      modifies this
      ensures Valid() && View() == old(View()).(queryCache := Some(c))
    {
      queryCache := Some(c);
    }

    method SetHydrationCacheImpl(c: CacheDriver)
      requires Valid()
      modifies this
      ensures Valid() && View() == old(View()).(hydrationCache := Some(c))
    {
      hydrationCache := Some(c);
    }

    method SetMetadataCacheImpl(c: CacheDriver)
      requires Valid()
      modifies this
      ensures Valid() && View() == old(View()).(metadataCache := Some(c))
    {
      metadataCache := Some(c);
    }

    method SetSecondLevelCacheConfiguration(t: Token)
      requires Valid()
      modifies this
      ensures Valid() && View() == old(View()).(secondLevelCache := Some(t))
    {
      secondLevelCache := Some(t);
    }

    method SetClassMetadataFactoryName(name: string)
      requires Valid()
      modifies this
      ensures Valid() && View() == old(View()).(classMetadataFactoryName := name)
    {
      classMetadataFactoryName := name;
    }

    /**
     * setDefaultRepositoryClassName: a class that does not implement
     * ObjectRepository is refused and the old name kept.  Which classes do
     * is a question for PHP's class loader, so they come in as
     * objectRepositories.
     */
    method SetDefaultRepositoryClassName(name: string, objectRepositories: set<string>) returns (err: Option<ConfigError>)
      requires Valid()
      modifies this
      ensures Valid()
      ensures err.Some? <==> name !in objectRepositories
      ensures err.Some? ==> err.value == InvalidEntityRepository(name) && View() == old(View())
      ensures err.None? ==> View() == old(View()).(repositoryClassName := name)
    {
      if name !in objectRepositories {
        return Some(InvalidEntityRepository(name));
      }
      repositoryClassName := name;
      err := None;
    }

    method SetNamingStrategy(t: Token)
      requires Valid()
      modifies this
      ensures Valid() && View() == old(View()).(namingStrategy := Supplied(t))
    {
      namingStrategy := Supplied(t);
    }

    method SetQuoteStrategy(t: Token)
      requires Valid()
      modifies this
      ensures Valid() && View() == old(View()).(quoteStrategy := Supplied(t))
    {
      quoteStrategy := Supplied(t);
    }

    method SetEntityListenerResolver(t: Token)
      requires Valid()
      modifies this
      ensures Valid() && View() == old(View()).(entityListenerResolver := Supplied(t))
    {
      entityListenerResolver := Supplied(t);
    }

    // -------------------------------------------------------------------
    // Entity namespaces

    method AddEntityNamespace(alias: string, ns: string)
      requires Valid()
      modifies this
      ensures Valid() && View() == old(View()).(entityNamespaces := old(entityNamespaces)[alias := ns])
    {
      entityNamespaces := entityNamespaces[alias := ns];
    }

    /** setEntityNamespaces: the given map replaces every alias registered before. */
    method SetEntityNamespaces(namespaces: map<string, string>)
      requires Valid()
      modifies this
      ensures Valid() && View() == old(View()).(entityNamespaces := namespaces)
    {
      entityNamespaces := namespaces;
    }

    /**
     * getEntityNamespace: the namespace registered for the alias, without
     * leading or trailing backslashes; an unknown alias is an error.
     */
    function GetEntityNamespace(alias: string): (r: Result<string, ConfigError>)
      reads this
      ensures r.Ok? <==> alias in entityNamespaces
      ensures r.Err? ==> r.error == UnknownEntityNamespace(alias)
      ensures r.Ok? ==> |r.value| <= |entityNamespaces[alias]|
      ensures r.Ok? && |r.value| > 0 ==> r.value[0] != '\\' && r.value[|r.value| - 1] != '\\'
      ensures r.Ok? ==> var ns := entityNamespaces[alias];
        (|ns| == 0 || (ns[0] != '\\' && ns[|ns| - 1] != '\\')) ==> r.value == ns
      ensures r.Ok? ==> var ns, k := entityNamespaces[alias], LeadingRun(entityNamespaces[alias], '\\');
        k + |r.value| <= |ns| && r.value == ns[k..k + |r.value|] && forall i :: k + |r.value| <= i < |ns| ==> ns[i] == '\\'
    {
      if alias in entityNamespaces then TrimIsSlice(entityNamespaces[alias], '\\'); Ok(Trim(entityNamespaces[alias], '\\'))
      else Err(UnknownEntityNamespace(alias))
    }

    // -------------------------------------------------------------------
    // Named queries

    method AddNamedQuery(name: string, dql: string)
      requires Valid()
      modifies this
      ensures Valid() && View() == old(View()).(namedQueries := old(namedQueries)[name := dql])
      ensures GetNamedQuery(name) == Ok(dql)
    {
      namedQueries := namedQueries[name := dql];
    }

    /** getNamedQuery: the DQL stored under the name; an unknown name is an error. */
    function GetNamedQuery(name: string): (r: Result<string, ConfigError>)
      reads this
      ensures r.Ok? <==> name in namedQueries
      ensures r.Ok? ==> r.value == namedQueries[name]
      ensures r.Err? ==> r.error == NamedQueryNotFound(name)
    {
      if name in namedQueries then Ok(namedQueries[name]) else Err(NamedQueryNotFound(name))
    }

    method AddNamedNativeQuery(name: string, sql: string, rsm: Token)
      requires Valid()
      modifies this
      ensures Valid() && View() == old(View()).(namedNativeQueries := old(namedNativeQueries)[name := (sql, rsm)])
      ensures GetNamedNativeQuery(name) == Ok((sql, rsm))
    {
      namedNativeQueries := namedNativeQueries[name := (sql, rsm)];
    }

    /** getNamedNativeQuery: the pair of SQL and result set mapping stored under the name; an unknown name is an error. */
    function GetNamedNativeQuery(name: string): (r: Result<(string, Token), ConfigError>)
      reads this
      ensures r.Ok? <==> name in namedNativeQueries
      ensures r.Ok? ==> r.value == namedNativeQueries[name]
      ensures r.Err? ==> r.error == NamedNativeQueryNotFound(name)
    {
      if name in namedNativeQueries then Ok(namedNativeQueries[name]) else Err(NamedNativeQueryNotFound(name))
    }

    // -------------------------------------------------------------------
    // Custom DQL functions

    /**
     * addCustomStringFunction / addCustomNumericFunction /
     * addCustomDatetimeFunction: a built-in name of any kind is refused and
     * nothing changes; otherwise the class is stored under the lower-cased
     * name.
     */
    method AddCustomFunction(kind: FunctionKind, name: string, className: string) returns (err: Option<ConfigError>)
      requires Valid()
      modifies this
      ensures Valid()
      ensures err.Some? <==> IsInternalFunction(name)
      ensures err.Some? ==> err.value == InternalFunctionOverwrite(name) && View() == old(View())
      ensures err.None? ==> View() == WithFunctions(old(View()), kind, FunctionsOf(old(View()), kind)[Lower(name) := className])
    {
      if IsInternalFunction(name) {
        return Some(InternalFunctionOverwrite(name));
      }
      LowerIdempotent(name);
      err := None;
      match kind
      case StringFunction => stringFunctions := stringFunctions[Lower(name) := className];
      case NumericFunction => numericFunctions := numericFunctions[Lower(name) := className];
      case DatetimeFunction => datetimeFunctions := datetimeFunctions[Lower(name) := className];
    }

    /** getCustomStringFunction and its siblings: the class registered under the name in any letter case, or nothing. */
    function GetCustomFunction(kind: FunctionKind, name: string): (r: Option<string>)
      reads this
      ensures r.Some? <==> Lower(name) in FunctionsOf(View(), kind)
      ensures r.Some? ==> r.value == FunctionsOf(View(), kind)[Lower(name)]
    {
      var m := FunctionsOf(View(), kind);
      if Lower(name) in m then Some(m[Lower(name)]) else None
    }

    /**
     * setCustomStringFunctions and its siblings: the functions registered
     * before are discarded and the entries are added in order, stopping at
     * the first built-in name.
     */
    method SetCustomFunctions(kind: FunctionKind, entries: seq<(string, string)>) returns (err: Option<ConfigError>)
      requires Valid()
      modifies this
      ensures Valid()
      ensures (FunctionsOf(View(), kind), err) == RegisterAll(map[], entries)
      ensures View() == WithFunctions(old(View()), kind, FunctionsOf(View(), kind))
    {
      var m: map<string, string> := map[];
      var i := 0;
      while i < |entries|
        invariant 0 <= i <= |entries|
        invariant CanonicalFunctions(m)
        invariant RegisterAll(m, entries[i..]) == RegisterAll(map[], entries)
        invariant View() == old(View())
      {
        var (name, className) := entries[i];
        assert entries[i..][0] == entries[i];
        if IsInternalFunction(name) {
          err := Some(InternalFunctionOverwrite(name));
          break;
        }
        LowerIdempotent(name);
        assert entries[i..][1..] == entries[i + 1..];
        m := m[Lower(name) := className];
        i := i + 1;
      }
      if i == |entries| {
        err := None;
      }
      match kind
      case StringFunction => stringFunctions := m;
      case NumericFunction => numericFunctions := m;
      case DatetimeFunction => datetimeFunctions := m;
    }

    // -------------------------------------------------------------------
    // Custom hydration modes and filters

    method AddCustomHydrationMode(modeName: string, hydrator: string)
      requires Valid()
      modifies this
      ensures Valid() && View() == old(View()).(hydrationModes := old(hydrationModes)[modeName := hydrator])
    {
      hydrationModes := hydrationModes[modeName := hydrator];
    }

    /** getCustomHydrationMode: the hydrator stored under the exact name, or nothing. */
    function GetCustomHydrationMode(modeName: string): (r: Option<string>)
      reads this
      ensures r.Some? <==> modeName in hydrationModes
      ensures r.Some? ==> r.value == hydrationModes[modeName]
    {
      if modeName in hydrationModes then Some(hydrationModes[modeName]) else None
    }

    /** setCustomHydrationModes: the modes added before are discarded, then each entry is added in order. */
    method SetCustomHydrationModes(entries: seq<(string, string)>)
      requires Valid()
      modifies this
      ensures Valid() && View() == old(View()).(hydrationModes := Assigned(map[], entries))
    {
      hydrationModes := map[];
      var i := 0;
      while i < |entries|
        invariant 0 <= i <= |entries|
        invariant Assigned(hydrationModes, entries[i..]) == Assigned(map[], entries)
        invariant View() == old(View()).(hydrationModes := hydrationModes)
      {
        assert entries[i..][1..] == entries[i + 1..];
        hydrationModes := hydrationModes[entries[i].0 := entries[i].1];
        i := i + 1;
      }
    }

    method AddFilter(name: string, className: string)
      requires Valid()
      modifies this
      ensures Valid() && View() == old(View()).(filters := old(filters)[name := className])
    {
      filters := filters[name := className];
    }

    /** getFilterClassName: the class of the named filter, or nothing. */
    function GetFilterClassName(name: string): (r: Option<string>)
      reads this
      ensures r.Some? <==> name in filters
      ensures r.Some? ==> r.value == filters[name]
    {
      if name in filters then Some(filters[name]) else None
    }

    // -------------------------------------------------------------------
    // Production settings

    /** ensureProductionSettings: raises the first check that fails, and changes nothing. */
    method EnsureProductionSettings() returns (err: Option<ConfigError>)
      ensures err == ProductionCheck(View())
    {
      if queryCache.None? {
        return Some(QueryCacheNotConfigured);
      }
      if queryCache.value.ArrayCache? {
        return Some(QueryCacheNonPersistent(ArrayCacheClass));
      }
      if metadataCache.None? {
        return Some(MetadataCacheNotConfigured);
      }
      if metadataCache.value.ArrayCache? {
        return Some(MetadataCacheNonPersistent(ArrayCacheClass));
      }
      if AutoGenerateProxyClasses() != AutogenerateNever {
        return Some(ProxyClassesAlwaysRegenerating);
      }
      return None;
    }
  }
}

/**
 * Client code that drives a fresh Configuration through the call
 * sequences of the ORM's configuration tests, with what each sequence
 * must observe.
 */
module ConfigScenarios {
  import opened Wrappers
  import opened Strings
  import opened OrmConfiguration

  /** The proxy mode: ALWAYS by default, NEVER after false, ALWAYS after true, an integer mode as given. */
  method AutoGenerateSequence() returns (initial: int, afterFalse: int, afterTrue: int, afterFileNotExists: int)
    ensures initial == AutogenerateAlways
    ensures afterFalse == AutogenerateNever
    ensures afterTrue == AutogenerateAlways
    ensures afterFileNotExists == AutogenerateFileNotExists
  {
    var c := new Configuration();
    initial := c.AutoGenerateProxyClasses();
    c.SetAutoGenerateProxyClasses(Flag(false));
    afterFalse := c.AutoGenerateProxyClasses();
    c.SetAutoGenerateProxyClasses(Flag(true));
    afterTrue := c.AutoGenerateProxyClasses();
    c.SetAutoGenerateProxyClasses(Mode(AutogenerateFileNotExists));
    afterFileNotExists := c.AutoGenerateProxyClasses();
  }

  /**
   * The default repository class starts as EntityRepository, takes a custom
   * repository class, and refuses a class that is not a repository, which
   * leaves the custom one in place.
   */
  method RepositoryClassSequence(custom: string, notRepository: string, repositories: set<string>)
    returns (initial: string, afterCustom: string, refused: Option<ConfigError>, afterRefused: string)
    requires custom in repositories && notRepository !in repositories
    ensures initial == DefaultRepositoryClassName
    ensures afterCustom == custom
    ensures refused == Some(InvalidEntityRepository(notRepository))
    ensures afterRefused == custom
  {
    var c := new Configuration();
    initial := c.repositoryClassName;
    var err := c.SetDefaultRepositoryClassName(custom, repositories);
    afterCustom := c.repositoryClassName;
    refused := c.SetDefaultRepositoryClassName(notRepository, repositories);
    afterRefused := c.repositoryClassName;
  }

  /**
   * addEntityNamespace then getEntityNamespace returns the namespace;
   * setEntityNamespaces replaces the whole map, so the alias added first
   * and any other alias are unknown afterwards.
   */
  method EntityNamespaceSequence(alias: string, ns: string, other: string, otherNs: string, unknown: string)
    returns (got: Result<string, ConfigError>, all: map<string, string>,
             forgotten: Result<string, ConfigError>, missing: Result<string, ConfigError>)
    requires |ns| == 0 || (ns[0] != '\\' && ns[|ns| - 1] != '\\')
    requires alias != other && unknown != other
    ensures got == Ok(ns)
    ensures all == map[other := otherNs]
    ensures forgotten == Err(UnknownEntityNamespace(alias))
    ensures missing == Err(UnknownEntityNamespace(unknown))
  {
    var c := new Configuration();
    c.AddEntityNamespace(alias, ns);
    got := c.GetEntityNamespace(alias);
    c.SetEntityNamespaces(map[other := otherNs]);
    all := c.entityNamespaces;
    forgotten := c.GetEntityNamespace(alias);
    missing := c.GetEntityNamespace(unknown);
  }

  /** A named query reads back as stored, a native one as its (sql, mapping) pair, and an unknown name is an error. */
  method NamedQuerySequence(name: string, dql: string, sql: string, rsm: Token, unknown: string)
    returns (got: Result<string, ConfigError>, native: Result<(string, Token), ConfigError>,
             missing: Result<string, ConfigError>, missingNative: Result<(string, Token), ConfigError>)
    requires unknown != name
    ensures got == Ok(dql)
    ensures native == Ok((sql, rsm))
    ensures missing == Err(NamedQueryNotFound(unknown))
    ensures missingNative == Err(NamedNativeQueryNotFound(unknown))
  {
    var c := new Configuration();
    c.AddNamedQuery(name, dql);
    got := c.GetNamedQuery(name);
    c.AddNamedNativeQuery(name, sql, rsm);
    native := c.GetNamedNativeQuery(name);
    missing := c.GetNamedQuery(unknown);
    missingNative := c.GetNamedNativeQuery(unknown);
  }

  /** Which cache the production set-up leaves out. */
  datatype SkipCache = SkipNothing | SkipQuery | SkipMetadata

  /**
   * The production set-up (never generate proxies, persistent query and
   * metadata caches, one of them possibly skipped), then optional changes
   * back to an ArrayCache or to another proxy mode, then
   * ensureProductionSettings.
   */
  method ProductionSequence(skip: SkipCache, queryArray: bool, metadataArray: bool, mode: Option<int>)
    returns (err: Option<ConfigError>)
    ensures skip == SkipNothing && !queryArray && !metadataArray && mode.None? ==> err.None?
    ensures skip == SkipQuery && !queryArray ==> err == Some(QueryCacheNotConfigured)
    ensures skip == SkipMetadata && !queryArray && !metadataArray ==> err == Some(MetadataCacheNotConfigured)
    ensures queryArray ==> err == Some(QueryCacheNonPersistent(ArrayCacheClass))
    ensures skip != SkipQuery && !queryArray && metadataArray ==> err == Some(MetadataCacheNonPersistent(ArrayCacheClass))
    ensures skip == SkipNothing && !queryArray && !metadataArray && mode.Some? && mode.value != AutogenerateNever ==>
      err == Some(ProxyClassesAlwaysRegenerating)
  {
    var c := new Configuration();
    c.SetAutoGenerateProxyClasses(Mode(AutogenerateNever));
    if skip != SkipQuery {
      c.SetQueryCacheImpl(PersistentCache(1));
    }
    if skip != SkipMetadata {
      c.SetMetadataCacheImpl(PersistentCache(1));
    }
    if queryArray {
      c.SetQueryCacheImpl(ArrayCache);
    }
    if metadataArray {
      c.SetMetadataCacheImpl(ArrayCache);
    }
    if mode.Some? {
      c.SetAutoGenerateProxyClasses(Mode(mode.value));
    }
    err := c.EnsureProductionSettings();
  }

  /** The built-in name each kind's test tries to overwrite. */
  function BuiltInOf(kind: FunctionKind): (r: string)
    ensures IsInternalFunction(r)
  {
    match kind
    case StringFunction => assert Lower("concat") == "concat"; "concat"
    case NumericFunction => assert Lower("abs") == "abs"; "abs"
    case DatetimeFunction => assert Lower("date_add") == "date_add"; "date_add"
  }

  /**
   * addCustom*Function then getCustom*Function returns the class; an
   * unknown name gives nothing; after set*Functions the new name is
   * registered; adding a built-in name is refused.  The test asserts
   * nothing about the name added before the set: documentedDiscard is the
   * look-up of that name, gone because the model follows the setters'
   * documented discard.
   */
  method CustomFunctionSequence(kind: FunctionKind, className: string)
    returns (got: Option<string>, missing: Option<string>, afterSet: Option<string>,
             documentedDiscard: Option<string>, builtIn: Option<ConfigError>)
    ensures got == Some(className)
    ensures missing.None?
    ensures afterSet == Some(className)
    ensures documentedDiscard.None?
    ensures builtIn == Some(InternalFunctionOverwrite(BuiltInOf(kind)))
  {
    var c := new Configuration();
    got, missing := AddThenLookUp(c, kind, className);
    var otherName := "OtherFunctionName";
    NotInternalByInitial(otherName);
    assert |Lower("FunctionName")| != |Lower(otherName)|;
    var e := c.SetCustomFunctions(kind, [(otherName, className)]);
    RegisteredNames([(otherName, className)]);
    RegisteredLookup([(otherName, className)], 0);
    afterSet := c.GetCustomFunction(kind, otherName);
    documentedDiscard := c.GetCustomFunction(kind, "FunctionName");
    builtIn := c.AddCustomFunction(kind, BuiltInOf(kind), className);
  }

  /** addCustom*Function('FunctionName') on a configuration without custom functions of that kind, then two look-ups. */
  method AddThenLookUp(c: Configuration, kind: FunctionKind, className: string) returns (got: Option<string>, missing: Option<string>)
    requires c.Valid() && FunctionsOf(c.View(), kind) == map[]
    modifies c
    ensures c.Valid()
    ensures got == Some(className) && missing.None?
  {
    var name := "FunctionName";
    NotInternalByInitial(name);
    assert |Lower(name)| != |Lower("NonExistingFunction")|;
    var e := c.AddCustomFunction(kind, name, className);
    got := c.GetCustomFunction(kind, name);
    missing := c.GetCustomFunction(kind, "NonExistingFunction");
  }

  /** An unknown hydration mode gives nothing; setCustomHydrationModes discards the mode added before. */
  method HydrationModeSequence(modeName: string, otherMode: string, hydrator: string, unknown: string)
    returns (missing: Option<string>, got: Option<string>, discarded: Option<string>, afterSet: Option<string>)
    requires modeName != otherMode
    ensures missing.None?
    ensures got == Some(hydrator)
    ensures discarded.None?
    ensures afterSet == Some(hydrator)
  {
    var c := new Configuration();
    missing := c.GetCustomHydrationMode(unknown);
    c.AddCustomHydrationMode(modeName, hydrator);
    got := c.GetCustomHydrationMode(modeName);
    c.SetCustomHydrationModes([(otherMode, hydrator)]);
    AssignedLookup(map[], [(otherMode, hydrator)]);
    assert LastFor([(otherMode, hydrator)], 0);
    discarded := c.GetCustomHydrationMode(modeName);
    afterSet := c.GetCustomHydrationMode(otherMode);
  }

  /** The defaults a setter replaces: the metadata factory class, no filter of an unknown name, the default strategies. */
  method DefaultsSequence(factory: string, filter: string, filterClass: string, unknown: string, strategy: Token)
    returns (defaultFactory: string, setFactory: string, missingFilter: Option<string>, gotFilter: Option<string>,
             defaultNaming: Service, setNaming: Service)
    requires unknown != filter
    ensures defaultFactory == "Doctrine\\ORM\\Mapping\\ClassMetadataFactory"
    ensures setFactory == factory
    ensures missingFilter.None? && gotFilter == Some(filterClass)
    ensures defaultNaming.DefaultService? && setNaming == Supplied(strategy)
  {
    var c := new Configuration();
    defaultFactory := c.classMetadataFactoryName;
    c.SetClassMetadataFactoryName(factory);
    setFactory := c.classMetadataFactoryName;
    c.AddFilter(filter, filterClass);
    missingFilter := c.GetFilterClassName(unknown);
    gotFilter := c.GetFilterClassName(filter);
    defaultNaming := c.namingStrategy;
    c.SetNamingStrategy(strategy);
    setNaming := c.namingStrategy;
  }
}

/** `BrooklynRestApiLauncher`: its builder state and the decisions `start` makes before
    handing a context and a bind address to the web server. */
module Launcher {
  import opened Outcomes
  import opened BrooklynConfig
  import opened FileLocator
  import opened SecurityPolicy
  import opened CatalogSource
  import opened BindPolicy
  import opened WebContent
  import opened FilterChain

  /** How the REST API is deployed when no custom context is given. */
  datatype StartMode = Servlet | WebXml

  /** The builder. The management context is represented by its configuration store;
      a custom context by whether it is a `WebAppContext`. */
  datatype RestApiLauncher = RestApiLauncher(
    forceUseOfDefaultCatalogWithJavaClassPath: bool,
    securityProvider: Maybe<string>,
    filters: seq<ServletFilter>,
    mode: StartMode,
    managementConfig: Maybe<Config>,
    customContext: Maybe<ContextKind>,
    deployJsgui: bool,
    disableHighAvailability: bool)
  {
    function ManagementContext(config: Config): RestApiLauncher {
      this.(managementConfig := Present(config))
    }

    function ForceUseOfDefaultCatalogWithJavaClassPath(force: bool): RestApiLauncher {
      this.(forceUseOfDefaultCatalogWithJavaClassPath := force)
    }

    /** The override provider, by class name; `Absent` stands for passing null. */
    function SecurityProvider(provider: Maybe<string>): RestApiLauncher {
      this.(securityProvider := provider)
    }

    /** Replaces the servlet filter list, whatever it was before. */
    function Filters(newFilters: seq<ServletFilter>): RestApiLauncher {
      this.(filters := newFilters)
    }

    function Mode(newMode: StartMode): RestApiLauncher {
      this.(mode := newMode)
    }

    function CustomContext(kind: ContextKind): RestApiLauncher {
      this.(customContext := Present(kind))
    }

    function WithJsgui(): RestApiLauncher {
      this.(deployJsgui := true)
    }

    function WithoutJsgui(): RestApiLauncher {
      this.(deployJsgui := false)
    }

    function DisableHighAvailability(disable: bool): RestApiLauncher {
      this.(disableHighAvailability := disable)
    }
  }

  /** `launcher()`: a fresh builder with the field defaults. */
  function NewLauncher(): RestApiLauncher {
    RestApiLauncher(false, Absent, DEFAULT_FILTERS, Servlet, Absent, Absent, true, true)
  }

  /** The servlet filters default to request tagging then logging, and `filters(...)`
      replaces the list: the last call alone decides it, never extended by the defaults. */
  lemma FiltersReplaceNeverAppend(l: RestApiLauncher, first: seq<ServletFilter>, second: seq<ServletFilter>)
    ensures NewLauncher().filters == [RequestTaggingFilter, LoggingFilter]
    ensures NewLauncher().Filters(second).filters == second
    ensures l.Filters(first).Filters(second) == l.Filters(second)
  {
  }

  /** What `start` depends on besides the builder: the filesystem and glob matcher, the
      configuration a new management context would load, the classpath and temporary
      files, the CORS feature flag, and the two networking and configuration helpers. */
  datatype Environment = Environment(
    fs: FileSystem,
    globMatches: GlobMatcher,
    freshConfig: Config,
    bundledWarExists: bool,
    tempWarFile: string,
    tempDir: string,
    corsEnabled: bool,
    hasNoSecurityOptions: Config -> bool,
    nextAvailablePort: int -> int)

  /** The context the server will run. */
  datatype Context =
    | ServletContext(war: WarSource, providers: seq<Provider>, filters: seq<ServletFilter>)
    | WebXmlContext
    | Custom(kind: ContextKind)

  function KindOf(context: Context): ContextKind {
    if context.Custom? then context.kind else WebAppContext
  }

  /** Everything `start` decides: the context, its security setup, whether the class
      path is scanned for the catalog, where the server binds, whether HA was disabled,
      and the configuration store as the server sees it. */
  datatype LaunchPlan = LaunchPlan(
    context: Context,
    security: SecurityAction,
    scanJavaClassPath: bool,
    nic: Interface,
    port: int,
    haDisabled: bool,
    config: Config)

  /** The configuration of the management context `start` uses: the given one, or a new one. */
  function InitialConfig(l: RestApiLauncher, env: Environment): Config {
    match l.managementConfig
    case Present(config) => config
    case Absent => env.freshConfig
  }

  /** `servletContextHandler`: the static content, the providers and the servlet filters.
      The GUI is looked up only when it is wanted. */
  function ServletContextFor(l: RestApiLauncher, env: Environment): (r: Context)
    ensures r.ServletContext?
    ensures r.war == ChooseWar(l.deployJsgui, FindJsguiWebappInSource(env.fs, env.globMatches),
                               env.bundledWarExists, env.tempWarFile, env.tempDir)
    ensures r.providers == RestProviders(env.corsEnabled)
    ensures r.filters == l.filters
    ensures EntitlementContextFilter in r.providers && CsrfTokenFilter in r.providers
    ensures CorsImplSupplierFilter in r.providers <==> env.corsEnabled
  {
    var jsgui := if l.deployJsgui then FindJsguiWebappInSource(env.fs, env.globMatches) else Absent;
    ProvidersDistinctAndGuarded(env.corsEnabled);
    ServletContext(
      ChooseWar(l.deployJsgui, jsgui, env.bundledWarExists, env.tempWarFile, env.tempDir),
      RestProviders(env.corsEnabled),
      l.filters)
  }

  /** The context chosen by `start`: a custom one when given, else by mode. */
  function ContextFor(l: RestApiLauncher, env: Environment): Context {
    match l.customContext
    case Present(kind) => Custom(kind)
    case Absent => if l.mode == WebXml then WebXmlContext else ServletContextFor(l, env)
  }

  /** The configuration `startServer` reads, by the decision table: the store of the
      management context with the override provider recorded when the table says
      "secured" for an override, and the catalog URL the flag selects. */
  function PreparedConfig(l: RestApiLauncher, env: Environment): Config {
    var config := InitialConfig(l, env);
    var recorded :=
      if l.securityProvider.Present? && Classify(l.securityProvider, ConfiguredProvider(config)) == Secured
      then config[SECURITY_PROVIDER_CLASSNAME := l.securityProvider.value]
      else config;
    recorded[BROOKLYN_CATALOG_URL :=
      if l.forceUseOfDefaultCatalogWithJavaClassPath then SCANNING_CATALOG_BOM_URL else EMPTY_CATALOG_URL]
  }

  /** `start`, up to starting the web server: build the context, apply the security
      branch, choose the catalog, then take the bind decision on the resulting
      configuration. The management context is never null at the bind step. */
  function Start(l: RestApiLauncher, env: Environment): (r: Result<LaunchPlan>)
    ensures r.Thrown? <==>
      && l.customContext == Present(PlainContext)
      && Classify(l.securityProvider, ConfiguredProvider(InitialConfig(l, env))) == Secured
    ensures r.Ok? && l.customContext.Present? ==> r.value.context == Custom(l.customContext.value)
    ensures r.Ok? && l.customContext.Absent? && l.mode == WebXml ==> r.value.context == WebXmlContext
    ensures r.Ok? && l.customContext.Absent? && l.mode == Servlet ==> r.value.context == ServletContextFor(l, env)
    ensures r.Ok? ==>
      (r.value.security == InstallSecurityDescriptor <==>
         Classify(l.securityProvider, ConfiguredProvider(InitialConfig(l, env))) == Secured)
    ensures r.Ok? ==>
      (r.value.security == InstallNopHandler <==>
         && Classify(l.securityProvider, ConfiguredProvider(InitialConfig(l, env))) != Secured
         && l.customContext != Present(PlainContext))
    ensures r.Ok? ==> (r.value.security == LeaveUnsecured <==> l.customContext == Present(PlainContext))
    ensures r.Ok? ==> (r.value.nic == AnyNic <==> !env.hasNoSecurityOptions(PreparedConfig(l, env)))
    ensures r.Ok? && r.value.nic == AnyNic ==> r.value.config == PreparedConfig(l, env)
    ensures r.Ok? && r.value.nic == Loopback ==>
      r.value.config == PreparedConfig(l, env)[SECURITY_PROVIDER_CLASSNAME := ANYONE_PROVIDER]
    ensures r.Ok? ==> r.value.port == env.nextAvailablePort(FAVOURITE_PORT)
    ensures r.Ok? ==> (r.value.haDisabled <==> l.disableHighAvailability)
    ensures r.Ok? ==> (r.value.scanJavaClassPath <==> l.forceUseOfDefaultCatalogWithJavaClassPath)
    ensures r.Ok? ==> BROOKLYN_CATALOG_URL in r.value.config
    ensures r.Ok? ==>
      r.value.config[BROOKLYN_CATALOG_URL]
        == if l.forceUseOfDefaultCatalogWithJavaClassPath then SCANNING_CATALOG_BOM_URL else EMPTY_CATALOG_URL
    ensures r.Ok? ==>
      r.value.config - {SECURITY_PROVIDER_CLASSNAME, BROOKLYN_CATALOG_URL}
        == InitialConfig(l, env) - {SECURITY_PROVIDER_CLASSNAME, BROOKLYN_CATALOG_URL}
    ensures r.Ok? && r.value.nic == AnyNic ==> !env.hasNoSecurityOptions(r.value.config)
    ensures r.Ok? && r.value.nic == Loopback ==> ConfiguredAnyone(r.value.config)
    ensures r.Ok? && r.value.nic == AnyNic && l.securityProvider.Present?
            && l.securityProvider.value != ANYONE_PROVIDER ==>
      ConfiguredProvider(r.value.config) == l.securityProvider
  {
    var config := InitialConfig(l, env);
    var context := ContextFor(l, env);
    match ResolveSecurity(l.securityProvider, config, KindOf(context))
    case Thrown(fault) => Thrown(fault)
    case Ok(secured) =>
      var catalog := ChooseCatalog(secured.config, l.forceUseOfDefaultCatalogWithJavaClassPath);
      var bind := DecideBind(Present(catalog.config), env.hasNoSecurityOptions,
                             l.disableHighAvailability, env.nextAvailablePort);
      var plan := LaunchPlan(context, secured.action, catalog.scanJavaClassPath,
                             bind.nic, bind.port, bind.haDisabled, bind.config.value);
      ChangedOnlyAtSecurityAndCatalog(config, secured.config, catalog.config, plan.config);
      PreparedConfigIsStoreBeforeBind(l, env, secured.config, catalog.config);
      if plan.nic == Loopback then
        SameExceptAtIsWrite(catalog.config, plan.config, SECURITY_PROVIDER_CLASSNAME);
        Ok(plan)
      else
        Ok(plan)
  }

  /** The store after the security and catalog steps is the one the decision table
      predicts. */
  lemma PreparedConfigIsStoreBeforeBind(l: RestApiLauncher, env: Environment, secured: Config, catalog: Config)
    requires var config := InitialConfig(l, env);
      && SameExceptAt(config, secured, SECURITY_PROVIDER_CLASSNAME)
      && (l.securityProvider.Present? && Classify(l.securityProvider, ConfiguredProvider(config)) == Secured ==>
            ConfiguredProvider(secured) == l.securityProvider)
      && (!(l.securityProvider.Present? && Classify(l.securityProvider, ConfiguredProvider(config)) == Secured) ==>
            secured == config)
    requires SameExceptAt(secured, catalog, BROOKLYN_CATALOG_URL) && BROOKLYN_CATALOG_URL in catalog
    requires catalog[BROOKLYN_CATALOG_URL]
      == if l.forceUseOfDefaultCatalogWithJavaClassPath then SCANNING_CATALOG_BOM_URL else EMPTY_CATALOG_URL
    ensures catalog == PreparedConfig(l, env)
  {
    var config := InitialConfig(l, env);
    if l.securityProvider.Present? && Classify(l.securityProvider, ConfiguredProvider(config)) == Secured {
      SameExceptAtIsWrite(config, secured, SECURITY_PROVIDER_CLASSNAME);
    }
    SameExceptAtIsWrite(secured, catalog, BROOKLYN_CATALOG_URL);
  }

  /** The three steps of `start` each write one key: the rest of the store is kept. */
  lemma ChangedOnlyAtSecurityAndCatalog(c0: Config, c1: Config, c2: Config, c3: Config)
    requires SameExceptAt(c0, c1, SECURITY_PROVIDER_CLASSNAME)
    requires SameExceptAt(c1, c2, BROOKLYN_CATALOG_URL)
    requires SameExceptAt(c2, c3, SECURITY_PROVIDER_CLASSNAME)
    ensures c3 - {SECURITY_PROVIDER_CLASSNAME, BROOKLYN_CATALOG_URL}
            == c0 - {SECURITY_PROVIDER_CLASSNAME, BROOKLYN_CATALOG_URL}
  {
    var keys := {SECURITY_PROVIDER_CLASSNAME, BROOKLYN_CATALOG_URL};
    forall k | k !in keys
      ensures (k in c3 <==> k in c0) && (k in c0 ==> c3[k] == c0[k])
    {
      assert (k in c0 - {SECURITY_PROVIDER_CLASSNAME}) <==> (k in c1 - {SECURITY_PROVIDER_CLASSNAME});
      assert (k in c1 - {BROOKLYN_CATALOG_URL}) <==> (k in c2 - {BROOKLYN_CATALOG_URL});
      assert (k in c2 - {SECURITY_PROVIDER_CLASSNAME}) <==> (k in c3 - {SECURITY_PROVIDER_CLASSNAME});
      if k in c0 {
        assert (c0 - {SECURITY_PROVIDER_CLASSNAME})[k] == (c1 - {SECURITY_PROVIDER_CLASSNAME})[k];
        assert (c1 - {BROOKLYN_CATALOG_URL})[k] == (c2 - {BROOKLYN_CATALOG_URL})[k];
        assert (c2 - {SECURITY_PROVIDER_CLASSNAME})[k] == (c3 - {SECURITY_PROVIDER_CLASSNAME})[k];
      }
    }
    assert c3 - keys == c0 - keys;
  }

  /** Launching with every default, a management configuration without a security
      provider and no other security options: the server is on loopback, authentication
      is off (the Anyone provider is configured and the context gets the no-op handler),
      HA is disabled, the empty catalog is used, and the placeholder page is served when
      neither the GUI nor a bundled archive can be found. */
  lemma DefaultLaunchIsLocalAndOpen(env: Environment)
    requires SECURITY_PROVIDER_CLASSNAME !in env.freshConfig
    requires env.hasNoSecurityOptions(env.freshConfig[BROOKLYN_CATALOG_URL := EMPTY_CATALOG_URL])
    ensures var r := Start(NewLauncher(), env);
      && r.Ok?
      && r.value.nic == Loopback
      && r.value.port == env.nextAvailablePort(8081)
      && ConfiguredAnyone(r.value.config)
      && r.value.security == InstallNopHandler
      && r.value.haDisabled
      && r.value.config[BROOKLYN_CATALOG_URL] == EMPTY_CATALOG_URL
      && (FindJsguiWebappInSource(env.fs, env.globMatches).Absent? && !env.bundledWarExists ==>
            r.value.context == ServletContext(PlaceholderDir(env.tempDir, PLACEHOLDER_INDEX_HTML),
                                              BASELINE_PROVIDERS + (if env.corsEnabled then [CorsImplSupplierFilter] else []),
                                              DEFAULT_FILTERS))
  {
  }

  /** `hasNoSecurityOptions` notices a configured security provider. */
  ghost predicate NoticesProvider(hasNoSecurityOptions: Config -> bool) {
    forall c: Config :: SECURITY_PROVIDER_CLASSNAME in c ==> !hasNoSecurityOptions(c)
  }

  /** Launching with a security provider other than Anyone: the descriptor is installed,
      the provider is recorded in the configuration, and the server listens on all
      interfaces. */
  lemma OverrideLaunchIsExposedAndSecured(provider: string, env: Environment)
    requires provider != ANYONE_PROVIDER
    requires NoticesProvider(env.hasNoSecurityOptions)
    ensures var r := Start(NewLauncher().SecurityProvider(Present(provider)), env);
      && r.Ok?
      && r.value.nic == AnyNic
      && r.value.security == InstallSecurityDescriptor
      && ConfiguredProvider(r.value.config) == Present(provider)
  {
    var l := NewLauncher().SecurityProvider(Present(provider));
    var secured := ResolveSecurity(l.securityProvider, env.freshConfig, WebAppContext);
    var catalog := ChooseCatalog(secured.value.config, false);
    assert SECURITY_PROVIDER_CLASSNAME in catalog.config;
  }

  /** Every successful launch is either on loopback with the Anyone provider configured,
      or on all interfaces with security options present in the configuration. */
  lemma LaunchBindsBySecurityOptions(l: RestApiLauncher, env: Environment)
    requires Start(l, env).Ok?
    ensures var plan := Start(l, env).value;
      || (plan.nic == Loopback && ConfiguredAnyone(plan.config))
      || (plan.nic == AnyNic && !env.hasNoSecurityOptions(plan.config))
  {
  }

  /** When the configuration check notices a provider, a context that gets the security
      descriptor is always served on all interfaces. */
  lemma DescriptorImpliesAllInterfaces(l: RestApiLauncher, env: Environment)
    requires NoticesProvider(env.hasNoSecurityOptions)
    requires Start(l, env).Ok? && Start(l, env).value.security == InstallSecurityDescriptor
    ensures Start(l, env).value.nic == AnyNic
  {
    var config := InitialConfig(l, env);
    assert Classify(l.securityProvider, ConfiguredProvider(config)) == Secured;
    assert SECURITY_PROVIDER_CLASSNAME != BROOKLYN_CATALOG_URL;
    assert SECURITY_PROVIDER_CLASSNAME in PreparedConfig(l, env);
  }

  /** An Anyone override over a configured provider of another kind: the configured
      provider stays in the store, so the server binds all interfaces, yet the context
      gets only the no-op handler. */
  lemma AnyoneOverrideOnAllInterfaces(config: Config, provider: string, env: Environment)
    requires ConfiguredProvider(config) == Present(provider) && provider != ANYONE_PROVIDER
    requires NoticesProvider(env.hasNoSecurityOptions)
    ensures var r := Start(NewLauncher().ManagementContext(config).SecurityProvider(Present(ANYONE_PROVIDER)), env);
      && r.Ok?
      && r.value.nic == AnyNic
      && r.value.security == InstallNopHandler
      && ConfiguredProvider(r.value.config) == Present(provider)
  {
    var l := NewLauncher().ManagementContext(config).SecurityProvider(Present(ANYONE_PROVIDER));
    assert SECURITY_PROVIDER_CLASSNAME != BROOKLYN_CATALOG_URL;
    assert SECURITY_PROVIDER_CLASSNAME in PreparedConfig(l, env);
  }

  /** Security options without a provider key: the server binds all interfaces and the
      context gets only the no-op handler. */
  lemma OptionsWithoutProviderOnAllInterfaces(config: Config, env: Environment)
    requires SECURITY_PROVIDER_CLASSNAME !in config
    requires !env.hasNoSecurityOptions(config[BROOKLYN_CATALOG_URL := EMPTY_CATALOG_URL])
    ensures var r := Start(NewLauncher().ManagementContext(config), env);
      && r.Ok?
      && r.value.nic == AnyNic
      && r.value.security == InstallNopHandler
  {
  }
}

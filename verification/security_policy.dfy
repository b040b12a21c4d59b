/** The security branch of the launcher's `start`: which security setup the web
    context gets, and what is written to the configuration store. */
module SecurityPolicy {
  import opened Outcomes
  import opened BrooklynConfig

  /** The web context the security setup is applied to: the launcher's own contexts
      are `WebAppContext`s; a custom context may be a plain `ContextHandler`. */
  datatype ContextKind = WebAppContext | PlainContext

  /** What happens to the context. */
  datatype SecurityAction =
    | InstallSecurityDescriptor   // the `web-security.xml` override descriptor is added
    | InstallNopHandler           // an allow-everything security handler is set
    | LeaveUnsecured              // nothing is done (a non-web-app custom context)

  datatype SecurityOutcome = SecurityOutcome(action: SecurityAction, config: Config)

  /** The rows of the decision table, tried in order. */
  datatype SecurityCase =
    | OpenToAnyone   // the Anyone provider is requested, by override or by configuration
    | Secured        // some other provider is requested
    | Unconfigured   // nothing is requested

  /** The configured provider name, when one is set. */
  function ConfiguredProvider(config: Config): Maybe<string> {
    if SECURITY_PROVIDER_CLASSNAME in config then Present(config[SECURITY_PROVIDER_CLASSNAME]) else Absent
  }

  /** The decision table: the override is consulted first, the configuration only
      when there is no override. */
  function Classify(overrideProvider: Maybe<string>, configured: Maybe<string>): SecurityCase {
    match overrideProvider
    case Present(p) => if p == ANYONE_PROVIDER then OpenToAnyone else Secured
    case Absent =>
      match configured
      case Present(c) => if c == ANYONE_PROVIDER then OpenToAnyone else Secured
      case Absent => Unconfigured
  }

  /** The security branch of `start`. A provider class is identified by its name.
      Adding the descriptor casts the context to `WebAppContext`, which throws for a
      plain custom context. */
  function ResolveSecurity(overrideProvider: Maybe<string>, config: Config, context: ContextKind)
    : (r: Result<SecurityOutcome>)
    ensures r.Thrown? <==>
      context == PlainContext && Classify(overrideProvider, ConfiguredProvider(config)) == Secured
    ensures r.Thrown? ==> r.fault == ClassCast
    ensures r.Ok? ==>
      (r.value.action == InstallSecurityDescriptor <==>
         Classify(overrideProvider, ConfiguredProvider(config)) == Secured)
    ensures r.Ok? ==>
      (r.value.action == InstallNopHandler <==>
         Classify(overrideProvider, ConfiguredProvider(config)) != Secured && context == WebAppContext)
    ensures r.Ok? ==> (r.value.action == LeaveUnsecured <==> context == PlainContext)
    ensures r.Ok? ==> SameExceptAt(config, r.value.config, SECURITY_PROVIDER_CLASSNAME)
    ensures r.Ok? && overrideProvider.Present? && Classify(overrideProvider, ConfiguredProvider(config)) == Secured ==>
      ConfiguredProvider(r.value.config) == overrideProvider
    ensures r.Ok? && !(overrideProvider.Present? && Classify(overrideProvider, ConfiguredProvider(config)) == Secured) ==>
      r.value.config == config
    ensures r.Ok? && r.value.config != config ==>
      && overrideProvider.Present? && r.value.action == InstallSecurityDescriptor
      && ConfiguredProvider(r.value.config) == overrideProvider
  {
    var configSecurityProvider := ConfiguredProvider(config);
    var hasConfigSecurityProvider := configSecurityProvider.Present?;
    var hasOverrideSecurityProvider := overrideProvider.Present?;
    var hasAnyoneOverride :=
      overrideProvider == Present(ANYONE_PROVIDER)
      || (!hasOverrideSecurityProvider && hasConfigSecurityProvider
          && ANYONE_PROVIDER == configSecurityProvider.value);
    if !hasAnyoneOverride && (hasOverrideSecurityProvider || hasConfigSecurityProvider) then
      if context == PlainContext then Thrown(ClassCast)
      else if hasOverrideSecurityProvider then
        Ok(SecurityOutcome(InstallSecurityDescriptor,
                           config[SECURITY_PROVIDER_CLASSNAME := overrideProvider.value]))
      else
        Ok(SecurityOutcome(InstallSecurityDescriptor, config))
    else if context == WebAppContext then
      Ok(SecurityOutcome(InstallNopHandler, config))
    else
      assert context == PlainContext;
      Ok(SecurityOutcome(LeaveUnsecured, config))
  }

  /** An Anyone override opens the context whatever the configuration names, and
      leaves the configuration untouched. */
  lemma AnyoneOverrideWins(config: Config, context: ContextKind)
    ensures ResolveSecurity(Present(ANYONE_PROVIDER), config, context).Ok?
    ensures ResolveSecurity(Present(ANYONE_PROVIDER), config, context).value.action != InstallSecurityDescriptor
    ensures ResolveSecurity(Present(ANYONE_PROVIDER), config, context).value.config == config
  {
  }

  /** Any other override installs the descriptor and records its name, and the
      configured provider (whatever it was) plays no part in the decision. */
  lemma OtherOverrideSecures(p: string, config1: Config, config2: Config)
    requires p != ANYONE_PROVIDER
    requires SameExceptAt(config1, config2, SECURITY_PROVIDER_CLASSNAME)
    ensures ResolveSecurity(Present(p), config1, WebAppContext)
            == Ok(SecurityOutcome(InstallSecurityDescriptor, config1[SECURITY_PROVIDER_CLASSNAME := p]))
    ensures ResolveSecurity(Present(p), config1, WebAppContext).value.config
            == ResolveSecurity(Present(p), config2, WebAppContext).value.config
  {
    var u1 := config1[SECURITY_PROVIDER_CLASSNAME := p];
    var u2 := config2[SECURITY_PROVIDER_CLASSNAME := p];
    forall k | k != SECURITY_PROVIDER_CLASSNAME
      ensures (k in u1 <==> k in u2) && (k in u1 ==> u1[k] == u2[k])
    {
      assert (k in config1 - {SECURITY_PROVIDER_CLASSNAME}) <==> (k in config2 - {SECURITY_PROVIDER_CLASSNAME});
      if k in config1 {
        assert (config1 - {SECURITY_PROVIDER_CLASSNAME})[k] == (config2 - {SECURITY_PROVIDER_CLASSNAME})[k];
      }
    }
    assert u1 == u2;
  }

  /** Without an override the configuration store is never written. */
  lemma NoOverrideNoWrite(config: Config, context: ContextKind)
    requires ResolveSecurity(Absent, config, context).Ok?
    ensures ResolveSecurity(Absent, config, context).value.config == config
  {
  }
}

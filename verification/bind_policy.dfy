/** `startServer(mgmt, context, summary, disableHighAvailability)`: where the server
    listens, the forced Anyone provider on loopback, and the high-availability switch. */
module BindPolicy {
  import opened Outcomes
  import opened BrooklynConfig

  /** The port the launcher asks for first. */
  const FAVOURITE_PORT: int := 8081

  /** `Networking.ANY_NIC` (all interfaces) or `Networking.LOOPBACK`. */
  datatype Interface = AnyNic | Loopback

  /** Where the server binds, the management configuration after the decision
      (absent without a management context), and whether HA was disabled. */
  datatype BindDecision = BindDecision(nic: Interface, port: int, config: Maybe<Config>, haDisabled: bool)

  /** The bind decision. `hasNoSecurityOptions` is `BrooklynWebConfig.hasNoSecurityOptions`
      and `nextAvailablePort` is `Networking.nextAvailablePort`; both are given. */
  function DecideBind(mgmt: Maybe<Config>, hasNoSecurityOptions: Config -> bool,
                      disableHighAvailability: bool, nextAvailablePort: int -> int)
    : (r: BindDecision)
    ensures r.nic == AnyNic <==> mgmt.Present? && !hasNoSecurityOptions(mgmt.value)
    ensures r.port == nextAvailablePort(FAVOURITE_PORT)
    ensures r.haDisabled <==> mgmt.Present? && disableHighAvailability
    ensures r.config.Present? <==> mgmt.Present?
    ensures r.nic == AnyNic ==> r.config == mgmt
    ensures r.nic == Loopback && mgmt.Present? ==>
      && ConfiguredAnyone(r.config.value)
      && SameExceptAt(mgmt.value, r.config.value, SECURITY_PROVIDER_CLASSNAME)
  {
    var secure := mgmt.Present? && !hasNoSecurityOptions(mgmt.value);
    var config :=
      if !secure && mgmt.Present? then Present(mgmt.value[SECURITY_PROVIDER_CLASSNAME := ANYONE_PROVIDER])
      else mgmt;
    var haDisabled := mgmt.Present? && disableHighAvailability;
    BindDecision(if secure then AnyNic else Loopback, nextAvailablePort(FAVOURITE_PORT), config, haDisabled)
  }

  /** The configuration names the Anyone provider. */
  predicate ConfiguredAnyone(config: Config) {
    SECURITY_PROVIDER_CLASSNAME in config && config[SECURITY_PROVIDER_CLASSNAME] == ANYONE_PROVIDER
  }

  /** A server on all interfaces saw security options in its configuration; any other
      server is on loopback with the Anyone provider configured. Security options are
      not the same as an installed security descriptor: see the launcher's
      `AnyoneOverrideOnAllInterfaces` and `OptionsWithoutProviderOnAllInterfaces`. */
  lemma ExposedOnlyWithSecurityOptions(config: Config, hasNoSecurityOptions: Config -> bool,
                                       disableHighAvailability: bool, nextAvailablePort: int -> int)
    ensures var d := DecideBind(Present(config), hasNoSecurityOptions, disableHighAvailability, nextAvailablePort);
      || (d.nic == AnyNic && !hasNoSecurityOptions(config) && d.config == Present(config))
      || (d.nic == Loopback && hasNoSecurityOptions(config) && ConfiguredAnyone(d.config.value))
  {
  }
}

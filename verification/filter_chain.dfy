/** The two ordered lists the launcher installs around the REST API: the JAX-RS
    providers of `servletContextHandler` and the servlet filters of `filters(...)`. */
module FilterChain {

  /** The JAX-RS providers and filters handed to `RestApiSetup.installRest`. */
  datatype Provider =
    | ManagementContextProvider
    | ShutdownHandlerProvider
    | RequestTaggingRsFilter
    | NoCacheFilter
    | HaHotCheckResourceFilter
    | EntitlementContextFilter
    | CsrfTokenFilter
    | CorsImplSupplierFilter

  /** The providers that are always installed, in installation order. */
  const BASELINE_PROVIDERS: seq<Provider> := [
    ManagementContextProvider,
    ShutdownHandlerProvider,
    RequestTaggingRsFilter,
    NoCacheFilter,
    HaHotCheckResourceFilter,
    EntitlementContextFilter,
    CsrfTokenFilter]

  /** The provider list: the baseline, then the CORS filter when its feature flag is on. */
  function RestProviders(corsEnabled: bool): (r: seq<Provider>)
    ensures |r| == |BASELINE_PROVIDERS| + (if corsEnabled then 1 else 0)
    ensures r[..|BASELINE_PROVIDERS|] == BASELINE_PROVIDERS
    ensures CorsImplSupplierFilter in r <==> corsEnabled
    ensures corsEnabled ==> r[|r| - 1] == CorsImplSupplierFilter
  {
    if corsEnabled then BASELINE_PROVIDERS + [CorsImplSupplierFilter] else BASELINE_PROVIDERS
  }

  /** Each provider is installed at most once, and entitlement context and CSRF
      checking are always among them, whatever the flag says. */
  lemma ProvidersDistinctAndGuarded(corsEnabled: bool)
    ensures forall i, j :: 0 <= i < j < |RestProviders(corsEnabled)| ==>
              RestProviders(corsEnabled)[i] != RestProviders(corsEnabled)[j]
    ensures EntitlementContextFilter in RestProviders(corsEnabled)
    ensures CsrfTokenFilter in RestProviders(corsEnabled)
  {
    var r := RestProviders(corsEnabled);
    assert r[5] == EntitlementContextFilter && r[6] == CsrfTokenFilter;
  }

  /** A servlet filter class passed to `filters(...)`. */
  datatype ServletFilter = RequestTaggingFilter | LoggingFilter | OtherFilter(className: string)

  /** The launcher's `DEFAULT_FILTERS`: request tagging, then logging. */
  const DEFAULT_FILTERS: seq<ServletFilter> := [RequestTaggingFilter, LoggingFilter]
}

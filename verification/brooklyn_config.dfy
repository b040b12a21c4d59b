/** The management context's configuration store, as the launcher reads and writes it. */
module BrooklynConfig {

  /** Configuration store: setting name to its (string) value. */
  type Config = map<string, string>

  /** `BrooklynWebConfig.SECURITY_PROVIDER_CLASSNAME`. */
  const SECURITY_PROVIDER_CLASSNAME: string := "brooklyn.webconsole.security.provider"

  /** `BrooklynServerConfig.BROOKLYN_CATALOG_URL`. */
  const BROOKLYN_CATALOG_URL: string := "brooklyn.catalog.url"

  /** `AnyoneSecurityProvider.class.getName()`: the provider that lets everyone in. */
  const ANYONE_PROVIDER: string := "org.apache.brooklyn.rest.security.provider.AnyoneSecurityProvider"

  /** The launcher's `SCANNING_CATALOG_BOM_URL`. */
  const SCANNING_CATALOG_BOM_URL: string := "classpath://brooklyn/scanning.catalog.bom"

  /** `ManagementContextInternal.EMPTY_CATALOG_URL`. */
  const EMPTY_CATALOG_URL: string := "classpath://brooklyn/empty.catalog.bom"

  /** `c2` is `c1` except possibly at `key`. */
  predicate SameExceptAt(c1: Config, c2: Config, key: string) {
    c1 - {key} == c2 - {key}
  }

  /** A store that differs from `c1` at most at `key`, and holds `key`, is `c1` with
      that one entry written. */
  lemma SameExceptAtIsWrite(c1: Config, c2: Config, key: string)
    requires SameExceptAt(c1, c2, key) && key in c2
    ensures c2 == c1[key := c2[key]]
  {
    var w := c1[key := c2[key]];
    forall k | k != key
      ensures (k in c2 <==> k in w) && (k in c2 ==> c2[k] == w[k])
    {
      assert (k in c1 - {key}) <==> (k in c2 - {key});
      if k in c2 {
        assert (c1 - {key})[k] == (c2 - {key})[k];
      }
    }
  }
}

/** The catalog branch of the launcher's `start`: which catalog the platform loads. */
module CatalogSource {
  import opened BrooklynConfig

  /** The configuration after the catalog URL is set, and whether the Java class
      path is registered as the base class path for catalog scanning. */
  datatype CatalogChoice = CatalogChoice(config: Config, scanJavaClassPath: bool)

  /** Forced: the scanning catalog over the Java class path. Otherwise the empty
      catalog, replacing whatever catalog URL was configured. */
  function ChooseCatalog(config: Config, forceUseOfDefaultCatalogWithJavaClassPath: bool)
    : (r: CatalogChoice)
    ensures BROOKLYN_CATALOG_URL in r.config
    ensures r.config[BROOKLYN_CATALOG_URL] == SCANNING_CATALOG_BOM_URL <==> forceUseOfDefaultCatalogWithJavaClassPath
    ensures r.config[BROOKLYN_CATALOG_URL] in {SCANNING_CATALOG_BOM_URL, EMPTY_CATALOG_URL}
    ensures r.scanJavaClassPath <==> forceUseOfDefaultCatalogWithJavaClassPath
    ensures SameExceptAt(config, r.config, BROOKLYN_CATALOG_URL)
  {
    if forceUseOfDefaultCatalogWithJavaClassPath then
      CatalogChoice(config[BROOKLYN_CATALOG_URL := SCANNING_CATALOG_BOM_URL], true)
    else
      CatalogChoice(config[BROOKLYN_CATALOG_URL := EMPTY_CATALOG_URL], false)
  }

  /** The catalog step leaves the security provider setting as the security step left it. */
  lemma CatalogKeepsSecurityProvider(config: Config, force: bool)
    ensures SECURITY_PROVIDER_CLASSNAME in ChooseCatalog(config, force).config <==> SECURITY_PROVIDER_CLASSNAME in config
    ensures SECURITY_PROVIDER_CLASSNAME in config ==>
      ChooseCatalog(config, force).config[SECURITY_PROVIDER_CLASSNAME] == config[SECURITY_PROVIDER_CLASSNAME]
  {
  }
}

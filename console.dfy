/** The console service's configuration (pkg/app/console.go): which services it offers,
    and the URLs and API keys the console page is given, derived from the service
    configuration. */
module Console {

  import opened Strs

  /** Service names. `consoleService` is declared in console.go; the other names are
      declared elsewhere in the package and are given their configuration keys here. */
  const ConsoleService := "console"
  const AuthorizerService := "authorizer"
  const ReaderService := "reader"
  const WriterService := "writer"
  const ImporterService := "importer"
  const ExporterService := "exporter"
  const ModelService := "model"

  /** The gateway part of a service's API configuration (builder.API.Gateway). */
  datatype Gateway = Gateway(listenAddress: string, fqdn: string, http: bool)
  datatype API = API(gateway: Gateway)

  /** The parts of config.Config that PrepareConfig reads. */
  datatype Config = Config(services: map<string, API>, apiKeys: map<string, string>, tenantID: string)

  /** handlers.TopazCfg. */
  datatype TopazCfg = TopazCfg(
    authorizerServiceURL: string,
    authorizerAPIKey: string,
    directoryServiceURL: string,
    directoryAPIKey: string,
    directoryTenantID: string,
    directoryReaderServiceURL: string,
    directoryWriterServiceURL: string,
    directoryImporterServiceURL: string,
    directoryExporterServiceURL: string,
    directoryModelServiceURL: string,
    consoleURL: string)

  function AvailableServices(): (r: seq<string>)
    ensures r == [ConsoleService]
  {
    ["console"]
  }

  /** strings.Replace(listenAddress, "0.0.0.0", "localhost", 1). */
  function ServiceAddress(listenAddress: string): (r: string)
    ensures !Contains(listenAddress, "0.0.0.0") ==> r == listenAddress
    ensures Contains(listenAddress, "0.0.0.0") ==>
      var i := IndexOf(listenAddress, "0.0.0.0");
      r == listenAddress[..i] + "localhost" + listenAddress[i + 7..]
  {
    ReplaceFirstAtFirstOccurrence(listenAddress, "0.0.0.0", "localhost");
    ReplaceFirst(listenAddress, "0.0.0.0", "localhost")
  }

  /** A wildcard listen address is reached through localhost; only that first occurrence
      is rewritten, the rest of the address (port, or a later "0.0.0.0") is kept. */
  lemma {:induction false} ServiceAddressOfWildcard(rest: string)
    ensures ServiceAddress("0.0.0.0" + rest) == "localhost" + rest
  {
    assert OccursAt("0.0.0.0" + rest, "0.0.0.0", 0);
    assert ("0.0.0.0" + rest)[7..] == rest;
  }

  function Scheme(http: bool): string {
    if http then "http://" else "https://"
  }

  /** A configured FQDN is used as it is; otherwise the gateway's scheme followed by its
      listen address as a client reaches it. */
  function GatewayAddress(api: API): (r: string)
    ensures api.gateway.fqdn != "" ==> r == api.gateway.fqdn
    ensures api.gateway.fqdn == "" ==>
      var scheme := Scheme(api.gateway.http);
      |scheme| <= |r| && r[..|scheme|] == scheme && r[|scheme|..] == ServiceAddress(api.gateway.listenAddress)
  {
    if api.gateway.fqdn != "" then api.gateway.fqdn
    else
      var addr := ServiceAddress(api.gateway.listenAddress);
      if api.gateway.http then "http://" + addr else "https://" + addr
  }

  lemma GatewayAddressOfWildcard(rest: string, http: bool)
    ensures GatewayAddress(API(Gateway("0.0.0.0" + rest, "", http))) == Scheme(http) + "localhost" + rest
  {
    ServiceAddressOfWildcard(rest);
  }

  /** The URL of a service: "" when it is not configured. */
  function ServiceURL(services: map<string, API>, name: string): string {
    if name in services then GatewayAddress(services[name]) else ""
  }

  /** Some key of the API-key map, when `service` is configured and the map is not empty;
      Go's map iteration order decides which, so the choice here is arbitrary. */
  method AnyAPIKey(cfg: Config, service: string) returns (key: string)
    ensures service in cfg.services && |cfg.apiKeys| > 0 ==> key in cfg.apiKeys
    ensures service !in cfg.services || |cfg.apiKeys| == 0 ==> key == ""
  {
    key := "";
    if service in cfg.services && |cfg.apiKeys| > 0 {
      assert cfg.apiKeys.Keys != {};
      var k :| k in cfg.apiKeys;
      key := k;
    }
  }

  method PrepareConfig(cfg: Config) returns (r: TopazCfg)
    ensures r.authorizerServiceURL == ServiceURL(cfg.services, AuthorizerService)
    ensures r.directoryServiceURL == r.directoryReaderServiceURL == ServiceURL(cfg.services, ReaderService)
    ensures r.directoryWriterServiceURL == ServiceURL(cfg.services, WriterService)
    ensures r.directoryImporterServiceURL == ServiceURL(cfg.services, ImporterService)
    ensures r.directoryExporterServiceURL == ServiceURL(cfg.services, ExporterService)
    ensures r.directoryModelServiceURL == ServiceURL(cfg.services, ModelService)
    ensures r.consoleURL == ServiceURL(cfg.services, ConsoleService)
    ensures r.directoryTenantID == cfg.tenantID
    ensures AuthorizerService in cfg.services && |cfg.apiKeys| > 0 ==> r.authorizerAPIKey in cfg.apiKeys
    ensures AuthorizerService !in cfg.services || |cfg.apiKeys| == 0 ==> r.authorizerAPIKey == ""
    ensures ReaderService in cfg.services && |cfg.apiKeys| > 0 ==> r.directoryAPIKey in cfg.apiKeys
    ensures ReaderService !in cfg.services || |cfg.apiKeys| == 0 ==> r.directoryAPIKey == ""
  {
    // each URL is "" unless its service is configured
    var authorizerURL := ServiceURL(cfg.services, AuthorizerService);
    var readerURL := ServiceURL(cfg.services, ReaderService);
    var writerURL := ServiceURL(cfg.services, WriterService);
    var importerURL := ServiceURL(cfg.services, ImporterService);
    var exporterURL := ServiceURL(cfg.services, ExporterService);
    var modelURL := ServiceURL(cfg.services, ModelService);
    var consoleURL := ServiceURL(cfg.services, ConsoleService);
    var authorizerAPIKey := AnyAPIKey(cfg, AuthorizerService);
    var directoryAPIKey := AnyAPIKey(cfg, ReaderService);
    r := TopazCfg(
      authorizerServiceURL := authorizerURL,
      authorizerAPIKey := authorizerAPIKey,
      directoryServiceURL := readerURL,
      directoryAPIKey := directoryAPIKey,
      directoryTenantID := cfg.tenantID,
      directoryReaderServiceURL := readerURL,
      directoryWriterServiceURL := writerURL,
      directoryImporterServiceURL := importerURL,
      directoryExporterServiceURL := exporterURL,
      directoryModelServiceURL := modelURL,
      consoleURL := consoleURL);
  }
}

/** MjmlServiceProvider: builds the renderer services into the container from
    the layered configuration, registering the API renderer only when the
    mjml.io client library is installed. */
module ServiceProvider {
  import opened Config

  const BINARY_RENDERER: string := "mjml.renderer.binary"
  const API_CLIENT: string := "mjml.api_client"
  const API_RENDERER: string := "mjml.renderer.api"

  const BINARY_PATH: seq<string> := ["renderer", "binary", "options", "path"]
  const BINARY_MINIFY: seq<string> := ["renderer", "binary", "options", "minify"]
  const API_APPLICATION_ID: seq<string> := ["renderer", "api", "client", "application-id"]
  const API_SECRET_KEY: seq<string> := ["renderer", "api", "client", "secret-key"]

  /** A service definition: the class and the constructor arguments it is
      built with. `Foreign` stands for any definition this provider does not
      write (config.factory, the default renderer, ...). */
  datatype Service =
    | BinaryRenderer(path: Value, minify: Value)
    | ApiClient(applicationId: Value, secretKey: Value)
      /** The API renderer; `client` is the definition its
          `Reference('mjml.api_client')` resolves to. */
    | ApiRenderer(client: Service)
    | Foreign(name: string)

  /** The service container, as a map from service id to definition. */
  type Container = map<string, Service>

  /** A configuration option read as `$mjml_settings[path] ?? $mjml_configuration[path] ?? default`. */
  function ResolveOption(mjmlSettings: Value, mjmlConfiguration: Value, path: seq<string>, default: Value): (r: Value)
    ensures Lookup(mjmlSettings, path).Some? ==> r == Lookup(mjmlSettings, path).value
    ensures Lookup(mjmlSettings, path).None? && Lookup(mjmlConfiguration, path).Some? ==>
              r == Lookup(mjmlConfiguration, path).value
    ensures Lookup(mjmlSettings, path).None? && Lookup(mjmlConfiguration, path).None? ==> r == default
  {
    var layers := [mjmlSettings, mjmlConfiguration];
    assert layers[0] == mjmlSettings && layers[1] == mjmlConfiguration;
    Coalesce(layers, path, default)
  }

  /** registerBinaryProvider: defines `mjml.renderer.binary` with the resolved
      binary path (default '') and minify flag (default FALSE), replacing any
      earlier definition under that id and leaving every other id alone. */
  function RegisterBinaryProvider(container: Container, mjmlSettings: Value, mjmlConfiguration: Value): (r: Container)
    ensures BINARY_RENDERER in r
    ensures r[BINARY_RENDERER] ==
              BinaryRenderer(ResolveOption(mjmlSettings, mjmlConfiguration, BINARY_PATH, Str("")),
                             ResolveOption(mjmlSettings, mjmlConfiguration, BINARY_MINIFY, Bool(false)))
    ensures r.Keys == container.Keys + {BINARY_RENDERER}
    ensures forall id :: id in container && id != BINARY_RENDERER ==> r[id] == container[id]
  {
    var path := ResolveOption(mjmlSettings, mjmlConfiguration, BINARY_PATH, Str(""));
    var minify := ResolveOption(mjmlSettings, mjmlConfiguration, BINARY_MINIFY, Bool(false));
    container[BINARY_RENDERER := BinaryRenderer(path, minify)]
  }

  /** registerApiRenderer: when the client class exists, defines the mjml.io
      client with the resolved credentials (each default '') and the API
      renderer that references it; otherwise the container is unchanged. */
  function RegisterApiRenderer(container: Container, mjmlSettings: Value, mjmlConfiguration: Value,
                               clientClassExists: bool): (r: Container)
    ensures !clientClassExists ==> r == container
    ensures clientClassExists ==> r.Keys == container.Keys + {API_CLIENT, API_RENDERER}
    ensures clientClassExists ==>
              r[API_CLIENT] == ApiClient(ResolveOption(mjmlSettings, mjmlConfiguration, API_APPLICATION_ID, Str("")),
                                         ResolveOption(mjmlSettings, mjmlConfiguration, API_SECRET_KEY, Str(""))) &&
              r[API_RENDERER] == ApiRenderer(r[API_CLIENT])
    ensures forall id :: id in container && id != API_CLIENT && id != API_RENDERER ==> r[id] == container[id]
  {
    if clientClassExists then
      var applicationId := ResolveOption(mjmlSettings, mjmlConfiguration, API_APPLICATION_ID, Str(""));
      var secretKey := ResolveOption(mjmlSettings, mjmlConfiguration, API_SECRET_KEY, Str(""));
      var client := ApiClient(applicationId, secretKey);
      container[API_CLIENT := client][API_RENDERER := ApiRenderer(client)]
    else
      container
  }

  /** register: reads the `mjml` settings (default `[]`) and the `mjml`
      container parameter (`[]` when undefined), then registers the binary
      renderer and, when the client class exists, the API client and renderer. */
  function Register(container: Container, settings: Settings, params: Parameters, clientClassExists: bool): (r: Container)
    // the binary renderer is always there, configured settings-first
    ensures BINARY_RENDERER in r
    ensures r[BINARY_RENDERER] ==
              BinaryRenderer(Coalesce([SettingsGet(settings, "mjml", Array(map[])), MjmlConfiguration(params)],
                                      BINARY_PATH, Str("")),
                             Coalesce([SettingsGet(settings, "mjml", Array(map[])), MjmlConfiguration(params)],
                                      BINARY_MINIFY, Bool(false)))
    // the API entries are added exactly when the client library is installed
    ensures API_RENDERER !in container ==> (API_RENDERER in r <==> clientClassExists)
    ensures API_CLIENT !in container ==> (API_CLIENT in r <==> clientClassExists)
    ensures clientClassExists ==> r.Keys == container.Keys + {BINARY_RENDERER, API_CLIENT, API_RENDERER}
    ensures !clientClassExists ==> r.Keys == container.Keys + {BINARY_RENDERER}
    ensures clientClassExists ==>
              var layers := [SettingsGet(settings, "mjml", Array(map[])), MjmlConfiguration(params)];
              r[API_CLIENT] == ApiClient(Coalesce(layers, API_APPLICATION_ID, Str("")), Coalesce(layers, API_SECRET_KEY, Str(""))) &&
              r[API_RENDERER] == ApiRenderer(r[API_CLIENT])
    // nothing else is touched
    ensures forall id :: id in container && id !in {BINARY_RENDERER, API_CLIENT, API_RENDERER} ==> r[id] == container[id]
    ensures !clientClassExists ==> forall id :: id in container && id != BINARY_RENDERER ==> r[id] == container[id]
  {
    var mjmlSettings := SettingsGet(settings, "mjml", Array(map[]));
    var mjmlConfiguration := MjmlConfiguration(params);
    var withBinary := RegisterBinaryProvider(container, mjmlSettings, mjmlConfiguration);
    RegisterApiRenderer(withBinary, mjmlSettings, mjmlConfiguration, clientClassExists)
  }
}

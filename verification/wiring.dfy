/** The three pieces put together as the running site wires them: the
    provider builds the container, DefaultMjmlRenderer reads it on every
    call, and the mailer uses DefaultMjmlRenderer as its MJML renderer. */
module Wiring {
  import opened Wrappers
  import opened Config
  import opened ServiceProvider
  import opened DefaultRenderer
  import opened Mailer

  // The container is compiled once, by `register()` with the settings of
  // that moment (`buildSettings` below); `DefaultMjmlRenderer::render` reads
  // the settings of the current request (`settings`). The container
  // parameters are compiled into the container, so both read `params`.

  /** The renderer the mailer is constructed with: `mjml.renderer.default`. */
  function MailRenderer(settings: Settings, params: Parameters, container: Container, backend: Backend)
    : string -> Result<string, RenderError>
  {
    mjml => Render(settings, params, container, backend, mjml)
  }

  /** The mailer's `catch (\Exception $e)` applied to what this renderer throws. */
  predicate Catches(e: RenderError)
  {
    e.IsException()
  }

  /** The settings layer is the same whether read with default null (the
      renderer) or default `[]` (the provider): a key is set in one exactly
      when it is set in the other. */
  lemma SettingsLayersAgree(settings: Settings, path: seq<string>)
    requires path != []
    ensures Lookup(RendererSettings(settings), path) == Lookup(SettingsGet(settings, "mjml", Array(map[])), path)
  {
  }

  /** With no `default_renderer` anywhere, every render goes to the binary
      renderer the provider built, at container build time, from the layered
      path and minify options. */
  lemma BinaryRendererByDefault(buildSettings: Settings, settings: Settings, params: Parameters, container: Container,
                                clientClassExists: bool, backend: Backend, mjml: string)
    requires Lookup(RendererSettings(settings), DEFAULT_RENDERER_KEY).None?
    requires Lookup(MjmlConfiguration(params), DEFAULT_RENDERER_KEY).None?
    ensures var layers := [SettingsGet(buildSettings, "mjml", Array(map[])), MjmlConfiguration(params)];
            var binary := BinaryRenderer(Coalesce(layers, BINARY_PATH, Str("")), Coalesce(layers, BINARY_MINIFY, Bool(false)));
            match backend(binary, mjml)
            case Success(html) => Render(settings, params, Register(container, buildSettings, params, clientClassExists), backend, mjml) == Success(html)
            case Failure(thrown) => Render(settings, params, Register(container, buildSettings, params, clientClassExists), backend, mjml) == Failure(BackendFailure(thrown))
  {
  }

  /** Selecting the API renderer (from the settings or from the container
      parameter) when the mjml.io client is not installed makes every render
      fail the container lookup; the mailer catches that, logs it and hands
      the relabelled, collapsed message to the parent formatter. */
  lemma ApiRendererWithoutClientFallsBack(buildSettings: Settings, settings: Settings, params: Parameters, container: Container,
                                          backend: Backend, m: Message, parent: Message -> Message)
    requires SelectRendererId(settings, params) == Str(API_RENDERER)
    requires API_RENDERER !in container
    requires ContentType(m) == CONTENT_TYPE_MJML && Formattable(m)
    ensures var registry := Register(container, buildSettings, params, false);
            forall mjml :: Render(settings, params, registry, backend, mjml) == Failure(ServiceNotFound(API_RENDERER))
    ensures var r := Format(m, MailRenderer(settings, params, Register(container, buildSettings, params, false), backend),
                            Catches, parent);
            r.result == Success(parent(Relabel(m))) &&
            RenderFailed(m.body.items[0], ServiceNotFound(API_RENDERER)) in r.log
  {
  }

  /** With the client installed, selecting the API renderer sends every
      render to the API renderer service, built on the client with the
      application id and secret key resolved settings-first when the
      container was built. */
  lemma ApiRendererWithClient(buildSettings: Settings, settings: Settings, params: Parameters, container: Container,
                              backend: Backend, mjml: string)
    requires SelectRendererId(settings, params) == Str(API_RENDERER)
    ensures var layers := [SettingsGet(buildSettings, "mjml", Array(map[])), MjmlConfiguration(params)];
            var client := ApiClient(Coalesce(layers, API_APPLICATION_ID, Str("")), Coalesce(layers, API_SECRET_KEY, Str("")));
            var registry := Register(container, buildSettings, params, true);
            match backend(ApiRenderer(client), mjml)
            case Success(html) => Render(settings, params, registry, backend, mjml) == Success(html)
            case Failure(thrown) => Render(settings, params, registry, backend, mjml) == Failure(BackendFailure(thrown))
  {
  }

  /** A successful conversion through the wired renderer yields exactly the
      backend's HTML for the first body part, under `text/html`. */
  lemma ConvertedThroughSelectedRenderer(settings: Settings, params: Parameters, container: Container,
                                         backend: Backend, m: Message, parent: Message -> Message, id: string)
    requires ContentType(m) == CONTENT_TYPE_MJML && Formattable(m)
    requires SelectRendererId(settings, params) == Str(id) && id in container
    requires backend(container[id], m.body.items[0]).Success?
    ensures var r := Format(m, MailRenderer(settings, params, container, backend), Catches, parent);
            r.result.Success? &&
            ContentType(r.result.value) == CONTENT_TYPE_HTML &&
            r.result.value.body == Single(backend(container[id], m.body.items[0]).value) &&
            r.log == (if |m.body.items| > 1 then [Warning(m.body.items)] else [])
  {
  }

  /** An engine `\Error` thrown by the selected service (a TypeError while
      building it, a missing `render` method) is not caught: `format` throws
      it, logs no error and never reaches the parent formatter. */
  lemma EngineErrorEscapesFormat(settings: Settings, params: Parameters, container: Container,
                                 backend: Backend, m: Message, parent: Message -> Message, id: string)
    requires ContentType(m) == CONTENT_TYPE_MJML && Formattable(m)
    requires SelectRendererId(settings, params) == Str(id) && id in container
    requires backend(container[id], m.body.items[0]).Failure?
    requires backend(container[id], m.body.items[0]).error.Error?
    ensures var r := Format(m, MailRenderer(settings, params, container, backend), Catches, parent);
            r.result == Failure(BackendFailure(backend(container[id], m.body.items[0]).error)) &&
            r.log == (if |m.body.items| > 1 then [Warning(m.body.items)] else [])
  {
  }
}
